/**
 * The prediction routes: the synchronous predict endpoints and their
 * reply rule, the two reads, the queued prediction with its background
 * recomputation, the internal delete and the coordinator's review update,
 * each over the predictions table of a PredictionStore.
 */
module PredictionRoutes {
  import opened Wrappers
  import opened Common
  import opened Text
  import opened PredictionService

  const COMPLETED_MESSAGE: string := "Prediction completed successfully"
  const FAILED_PREFIX: string := "Prediction failed: "
  const QUEUED_MESSAGE: string := "Prediction queued"
  const DELETED_MESSAGE: string := "Prediction deleted successfully"
  const COORDINATOR: string := "gcf_coordinator"
  const PENDING: string := "pending"

  const NOT_FOUND_FOR_DOCUMENT: HttpError := HttpError(404, "Prediction not found for this document")
  const NOT_FOUND: HttpError := HttpError(404, "Prediction not found")
  const FORBIDDEN: HttpError := HttpError(403, "Only GCF coordinators can update review status")

  /** The TypeError raised by passing force_recompute to generate_prediction. */
  const FORCE_RECOMPUTE_ERROR: string :=
    "PredictionService.generate_prediction() got an unexpected keyword argument 'force_recompute'"

  /** The table and the id the next inserted row receives. */
  datatype Table = Table(rows: seq<Prediction>, nextId: nat)

  /** PredictionResponse. */
  datatype PredictionResponse = PredictionResponse(predictionId: nat, documentId: DocId, status: string, message: string)

  /** PredictionResult, without confidence, probabilities and processing time. */
  datatype PredictionResult = PredictionResult(
    predictionId: nat,
    documentId: DocId,
    structuringId: Option<string>,
    predictedBirads: string,
    predictedLabelId: nat,
    riskLevel: string,
    reviewStatus: string,
    coordinatorNotes: Option<string>,
    reviewedBy: Option<string>,
    reviewedAt: Option<nat>,
    modelVersion: string,
    status: string,
    createdAt: nat)

  /** An f-string rendering of an optional string: None is written "None". */
  function Rendered(x: Option<string>): string
  {
    match x
    case Some(s) => s
    case None => "None"
  }

  /** The reply message of a stored prediction. */
  function ResponseMessage(p: Prediction): string
  {
    if p.status == "completed" then COMPLETED_MESSAGE else FAILED_PREFIX + Rendered(p.errorMessage)
  }

  /** The success message is given exactly for completed rows; every other row gets the failure prefix. */
  lemma ResponseMessageRule(p: Prediction)
    ensures ResponseMessage(p) == COMPLETED_MESSAGE <==> p.status == "completed"
    ensures p.status != "completed" ==> StartsWith(ResponseMessage(p), FAILED_PREFIX)
  {
    if p.status != "completed" {
      var m := ResponseMessage(p);
      assert m[11] == FAILED_PREFIX[11] == 'f';
      assert COMPLETED_MESSAGE[11] == 'c';
      assert m[..|FAILED_PREFIX|] == FAILED_PREFIX;
    }
  }

  function Respond(p: Prediction): PredictionResponse
  {
    PredictionResponse(p.id, p.documentId, p.status, ResponseMessage(p))
  }

  /** What predict and predict-internal answer: the stored row, or a 500 naming the error that escaped. */
  function PredictReply(result: Result<Prediction, string>): Result<PredictionResponse, HttpError>
  {
    match result
    case Success(p) => Success(Respond(p))
    case Failure(e) => Failure(HttpError(500, FAILED_PREFIX + e))
  }

  /** A failed inference answers 500, although its failed row is stored. */
  lemma FailedInferenceAnswers500(rows: seq<Prediction>, nextId: nat, documentId: DocId, structuringId: Option<string>,
                                  data: map<string, string>, message: string, modelPath: string, now: nat)
    requires FindDocument(rows, documentId).None?
    ensures var g := Generate(rows, nextId, documentId, structuringId, data, InferenceFailed(message), modelPath, now);
      && PredictReply(g.result) == Failure(HttpError(500, FAILED_PREFIX + message))
      && FindDocument(g.rows, documentId).Some?
  {
    var g := Generate(rows, nextId, documentId, structuringId, data, InferenceFailed(message), modelPath, now);
    assert g.rows[|rows|].documentId == documentId;
  }

  /**
   * Asking for a prediction of a document whose prediction is queued
   * returns the pending row, and its message reads "Prediction failed: None".
   */
  lemma PendingRowReply(rows: seq<Prediction>, nextId: nat, documentId: DocId, structuringId: Option<string>,
                        data: map<string, string>, inference: Inference, modelPath: string, now: nat, k: nat)
    requires FindDocument(rows, documentId) == Some(k)
    requires rows[k].status == PENDING && rows[k].errorMessage.None?
    ensures PredictReply(Generate(rows, nextId, documentId, structuringId, data, inference, modelPath, now).result)
      == Success(PredictionResponse(rows[k].id, documentId, PENDING, "Prediction failed: None"))
  {
    assert PENDING != "completed";
    assert FAILED_PREFIX + "None" == "Prediction failed: None";
  }

  /** predict_risk and predict_risk_internal. */
  method PredictRisk(store: PredictionStore, documentId: DocId, structuringId: Option<string>, data: map<string, string>,
                     inference: Inference, now: nat) returns (r: Result<PredictionResponse, HttpError>)
    requires store.Valid()
    modifies store
    ensures store.Valid()
    ensures var g := Generate(old(store.rows), old(store.nextId), documentId, structuringId, data, inference, store.modelPath, now);
      store.rows == g.rows && store.nextId == g.nextId && r == PredictReply(g.result)
  {
    var result := store.GeneratePrediction(documentId, structuringId, data, inference, now);
    r := PredictReply(result);
  }

  /** The label id a read reports: the number when the stored label is all digits, else 0. */
  function LabelIdOnRead(stored: string): nat
  {
    if IsDigits(stored) then DigitsValue(stored) else 0
  }

  /** Reads give back the number a completed prediction stored, and 0 for the "unknown" label of other rows. */
  lemma LabelIdOnReadStoredLabels(n: nat)
    ensures LabelIdOnRead(NatToString(n)) == n
    ensures LabelIdOnRead(UNKNOWN) == 0
  {
    DigitsRoundTrip(n);
    assert !IsDigit(UNKNOWN[0]);
  }

  function View(p: Prediction, labelId: nat): PredictionResult
  {
    PredictionResult(p.id, p.documentId, p.structuringId, p.predictedBirads, labelId, p.riskLevel, p.reviewStatus,
                     p.coordinatorNotes, p.reviewedBy, p.reviewedAt, p.modelVersion, p.status, p.createdAt)
  }

  /** The PredictionResult the read routes build from a row. */
  function ResultOf(p: Prediction): PredictionResult
  {
    View(p, LabelIdOnRead(p.predictedLabelId))
  }

  /** get_prediction_by_document: 404 exactly when the document has no row. */
  function GetPredictionByDocument(rows: seq<Prediction>, documentId: DocId): (r: Result<PredictionResult, HttpError>)
    ensures r.Failure? <==> forall i :: 0 <= i < |rows| ==> rows[i].documentId != documentId
    ensures r.Failure? ==> r.error == NOT_FOUND_FOR_DOCUMENT
    ensures r.Success? ==> r.value.documentId == documentId && exists i :: 0 <= i < |rows| && r.value == ResultOf(rows[i])
  {
    match FindDocument(rows, documentId)
    case None => Failure(NOT_FOUND_FOR_DOCUMENT)
    case Some(k) => Success(ResultOf(rows[k]))
  }

  /** get_prediction: 404 exactly when no row has the id. */
  function GetPrediction(rows: seq<Prediction>, id: nat): (r: Result<PredictionResult, HttpError>)
    ensures r.Failure? <==> forall i :: 0 <= i < |rows| ==> rows[i].id != id
    ensures r.Failure? ==> r.error == NOT_FOUND
    ensures r.Success? ==> r.value.predictionId == id && exists i :: 0 <= i < |rows| && r.value == ResultOf(rows[i])
  {
    match Seqs.FirstIndex(rows, WithId(id))
    case None => Failure(NOT_FOUND)
    case Some(k) => Success(ResultOf(rows[k]))
  }

  /** Reading a newly completed prediction reports its BI-RADS score, risk level and label id. */
  lemma ReadBackCompleted(rows: seq<Prediction>, nextId: nat, documentId: DocId, structuringId: Option<string>,
                          data: map<string, string>, labelId: nat, birads: string, modelPath: string, now: nat)
    requires WellKeyed(rows, nextId) && FindDocument(rows, documentId).None?
    ensures var g := Generate(rows, nextId, documentId, structuringId, data, Inferred(labelId, birads), modelPath, now);
      var r := GetPredictionByDocument(g.rows, documentId);
      && r.Success? && r.value.status == "completed" && r.value.predictedBirads == birads
      && r.value.riskLevel == DetermineRiskLevel(birads) && r.value.predictedLabelId == labelId
  {
    var g := Generate(rows, nextId, documentId, structuringId, data, Inferred(labelId, birads), modelPath, now);
    GenerateKeepsKeys(rows, nextId, documentId, structuringId, data, Inferred(labelId, birads), modelPath, now);
    FindDocumentUnique(g.rows, g.nextId, documentId, |rows|);
    LabelIdOnReadStoredLabels(labelId);
  }

  /** The placeholder row predict_async inserts. */
  function PendingPrediction(id: nat, documentId: DocId, structuringId: Option<string>, now: nat): Prediction
  {
    Prediction(id, documentId, structuringId, UNKNOWN, UNKNOWN, UNKNOWN, NEW_REVIEW, None, None, None, MODEL_VERSION,
               None, None, PENDING, None, now, now)
  }

  /** The table after predict_async's upsert: a pending row is inserted, or the existing row set back to pending. */
  function Queue(rows: seq<Prediction>, nextId: nat, documentId: DocId, structuringId: Option<string>, now: nat): Table
  {
    match FindDocument(rows, documentId)
    case None => Table(rows + [PendingPrediction(nextId, documentId, structuringId, now)], nextId + 1)
    case Some(k) => Table(rows[k := rows[k].(status := PENDING, updatedAt := now)], nextId)
  }

  /**
   * After queueing, the document has exactly one row and it is pending; a
   * row was added only when the document had none, and no other row changed.
   */
  lemma QueueLeavesOnePendingRow(rows: seq<Prediction>, nextId: nat, documentId: DocId, structuringId: Option<string>, now: nat)
    requires WellKeyed(rows, nextId)
    ensures var t := Queue(rows, nextId, documentId, structuringId, now);
      && WellKeyed(t.rows, t.nextId)
      && FindDocument(t.rows, documentId).Some?
      && t.rows[FindDocument(t.rows, documentId).value].status == PENDING
      && (|t.rows| == |rows| + 1 <==> FindDocument(rows, documentId).None?)
      && (FindDocument(rows, documentId).Some? ==>
            && |t.rows| == |rows|
            && FindDocument(t.rows, documentId) == FindDocument(rows, documentId)
            && t.rows[FindDocument(rows, documentId).value].id == rows[FindDocument(rows, documentId).value].id)
      && forall i :: 0 <= i < |rows| && rows[i].documentId != documentId ==> t.rows[i] == rows[i]
  {
    var t := Queue(rows, nextId, documentId, structuringId, now);
    match FindDocument(rows, documentId)
    case None =>
      AppendKeepsKeys(rows, nextId, t.rows[|rows|]);
      assert t.rows == rows + [t.rows[|rows|]];
      FindDocumentUnique(t.rows, t.nextId, documentId, |rows|);
    case Some(k) =>
      ReplaceKeepsKeys(rows, nextId, k, t.rows[k]);
      FindDocumentUnique(t.rows, t.nextId, documentId, k);
  }

  /** predict_async without its background task: the upsert and the "Prediction queued" reply. */
  method PredictAsync(store: PredictionStore, documentId: DocId, structuringId: Option<string>, now: nat)
    returns (r: PredictionResponse)
    requires store.Valid()
    modifies store
    ensures store.Valid()
    ensures Table(store.rows, store.nextId) == Queue(old(store.rows), old(store.nextId), documentId, structuringId, now)
    ensures FindDocument(store.rows, documentId).Some?
    ensures r == PredictionResponse(store.rows[FindDocument(store.rows, documentId).value].id, documentId, PENDING, QUEUED_MESSAGE)
  {
    QueueLeavesOnePendingRow(store.rows, store.nextId, documentId, structuringId, now);
    var existing := FindDocument(store.rows, documentId);
    if existing.None? {
      var pending := PendingPrediction(store.nextId, documentId, structuringId, now);
      store.Insert(pending);
      r := PredictionResponse(pending.id, documentId, PENDING, QUEUED_MESSAGE);
    } else {
      var k := existing.value;
      store.Replace(k, store.rows[k].(status := PENDING, updatedAt := now));
      r := PredictionResponse(store.rows[k].id, documentId, PENDING, QUEUED_MESSAGE);
    }
  }

  /** The background task's failure handler: the document's row, if any, becomes failed with the error text. */
  function MarkFailed(rows: seq<Prediction>, documentId: DocId, message: string, now: nat): seq<Prediction>
  {
    match FindDocument(rows, documentId)
    case None => rows
    case Some(k) => rows[k := rows[k].(status := "failed", errorMessage := Some(message), updatedAt := now)]
  }

  /**
   * The background task as written: the call with force_recompute raises a
   * TypeError before generate_prediction runs, whatever the data and the
   * inference would have been, and the handler marks the row failed.
   */
  function BackgroundPredictAsWritten(rows: seq<Prediction>, nextId: nat, documentId: DocId, structuringId: Option<string>,
                                      data: map<string, string>, inference: Inference, modelPath: string, now: nat): Table
  {
    Table(MarkFailed(rows, documentId, FORCE_RECOMPUTE_ERROR, now), nextId)
  }

  /** As written, every queued prediction ends failed with the TypeError, even when inference would succeed. */
  lemma QueuedPredictionAlwaysFails(rows: seq<Prediction>, nextId: nat, documentId: DocId, structuringId: Option<string>,
                                    data: map<string, string>, inference: Inference, modelPath: string, queuedAt: nat, now: nat)
    requires WellKeyed(rows, nextId)
    ensures var t := Queue(rows, nextId, documentId, structuringId, queuedAt);
      var b := BackgroundPredictAsWritten(t.rows, t.nextId, documentId, structuringId, data, inference, modelPath, now);
      && FindDocument(b.rows, documentId).Some?
      && var p := b.rows[FindDocument(b.rows, documentId).value];
      && p.status == "failed" && p.errorMessage == Some(FORCE_RECOMPUTE_ERROR)
  {
    var t := Queue(rows, nextId, documentId, structuringId, queuedAt);
    QueueLeavesOnePendingRow(rows, nextId, documentId, structuringId, queuedAt);
    MarkFailedRow(t.rows, t.nextId, documentId, FORCE_RECOMPUTE_ERROR, now, FindDocument(t.rows, documentId).value);
  }

  /** The background task as intended: recompute over the pending row, and mark it failed if that raises. */
  function BackgroundPredict(rows: seq<Prediction>, nextId: nat, documentId: DocId, structuringId: Option<string>,
                             data: map<string, string>, inference: Inference, modelPath: string, now: nat): Table
  {
    var g := Recompute(rows, nextId, documentId, structuringId, data, inference, modelPath, now);
    match g.result
    case Success(_) => Table(g.rows, g.nextId)
    case Failure(e) => Table(MarkFailed(g.rows, documentId, e, now), g.nextId)
  }

  /**
   * With the recomputation, a queued prediction ends with the queued row's
   * id, completed with the inference's score and risk level when inference
   * succeeds and failed with its error when it does not, and the table
   * gains no second row for the document.
   */
  lemma QueuedPredictionCompletes(rows: seq<Prediction>, nextId: nat, documentId: DocId, structuringId: Option<string>,
                                  data: map<string, string>, inference: Inference, modelPath: string, queuedAt: nat, now: nat)
    requires WellKeyed(rows, nextId)
    ensures var t := Queue(rows, nextId, documentId, structuringId, queuedAt);
      var b := BackgroundPredict(t.rows, t.nextId, documentId, structuringId, data, inference, modelPath, now);
      && WellKeyed(b.rows, b.nextId) && |b.rows| == |t.rows|
      && FindDocument(b.rows, documentId) == FindDocument(t.rows, documentId)
      && var k := FindDocument(t.rows, documentId).value;
      && b.rows[k].id == t.rows[k].id
      && (b.rows[k].status == "completed" <==> inference.Inferred?)
      && (inference.Inferred? ==>
            && b.rows[k].predictedBirads == inference.birads
            && b.rows[k].riskLevel == DetermineRiskLevel(inference.birads))
      && (inference.InferenceFailed? ==> b.rows[k].status == "failed" && b.rows[k].errorMessage == Some(inference.message))
  {
    var t := Queue(rows, nextId, documentId, structuringId, queuedAt);
    QueueLeavesOnePendingRow(rows, nextId, documentId, structuringId, queuedAt);
    BackgroundOverRow(t.rows, t.nextId, documentId, structuringId, data, inference, modelPath, now,
                      FindDocument(t.rows, documentId).value);
  }

  /** The intended background task over the document's row k. */
  lemma BackgroundOverRow(rows: seq<Prediction>, nextId: nat, documentId: DocId, structuringId: Option<string>,
                          data: map<string, string>, inference: Inference, modelPath: string, now: nat, k: nat)
    requires WellKeyed(rows, nextId) && FindDocument(rows, documentId) == Some(k)
    ensures var b := BackgroundPredict(rows, nextId, documentId, structuringId, data, inference, modelPath, now);
      && WellKeyed(b.rows, b.nextId) && |b.rows| == |rows|
      && FindDocument(b.rows, documentId) == Some(k)
      && b.rows[k].id == rows[k].id
      && (b.rows[k].status == "completed" <==> inference.Inferred?)
      && (inference.Inferred? ==>
            && b.rows[k].predictedBirads == inference.birads
            && b.rows[k].riskLevel == DetermineRiskLevel(inference.birads))
      && (inference.InferenceFailed? ==> b.rows[k].status == "failed" && b.rows[k].errorMessage == Some(inference.message))
  {
    RecomputeWithRow(rows, nextId, documentId, structuringId, data, inference, modelPath, now, k);
    var g := Recompute(rows, nextId, documentId, structuringId, data, inference, modelPath, now);
    if g.result.Failure? {
      MarkFailedRow(g.rows, g.nextId, documentId, g.result.error, now, k);
    }
  }

  /** Marking the document's row k failed keeps the table well keyed and the row where it was. */
  lemma MarkFailedRow(rows: seq<Prediction>, nextId: nat, documentId: DocId, message: string, now: nat, k: nat)
    requires WellKeyed(rows, nextId) && FindDocument(rows, documentId) == Some(k)
    ensures var after := MarkFailed(rows, documentId, message, now);
      && WellKeyed(after, nextId) && |after| == |rows|
      && FindDocument(after, documentId) == Some(k)
      && after[k].id == rows[k].id && after[k].status == "failed" && after[k].errorMessage == Some(message)
  {
    var after := MarkFailed(rows, documentId, message, now);
    ReplaceKeepsKeys(rows, nextId, k, after[k]);
    FindDocumentUnique(after, nextId, documentId, k);
  }

  method MarkRowFailed(store: PredictionStore, documentId: DocId, message: string, now: nat)
    requires store.Valid()
    modifies store
    ensures store.Valid()
    ensures store.rows == MarkFailed(old(store.rows), documentId, message, now) && store.nextId == old(store.nextId)
  {
    var row := FindDocument(store.rows, documentId);
    if row.Some? {
      var k := row.value;
      store.Replace(k, store.rows[k].(status := "failed", errorMessage := Some(message), updatedAt := now));
    }
  }

  /** _background_predict as written. */
  method BackgroundTaskAsWritten(store: PredictionStore, documentId: DocId, structuringId: Option<string>,
                                 data: map<string, string>, inference: Inference, now: nat)
    requires store.Valid()
    modifies store
    ensures store.Valid()
    ensures Table(store.rows, store.nextId)
      == BackgroundPredictAsWritten(old(store.rows), old(store.nextId), documentId, structuringId, data, inference, store.modelPath, now)
  {
    MarkRowFailed(store, documentId, FORCE_RECOMPUTE_ERROR, now);
  }

  /** _background_predict with the recomputation it asks for. */
  method BackgroundTask(store: PredictionStore, documentId: DocId, structuringId: Option<string>,
                        data: map<string, string>, inference: Inference, now: nat)
    requires store.Valid()
    modifies store
    ensures store.Valid()
    ensures Table(store.rows, store.nextId)
      == BackgroundPredict(old(store.rows), old(store.nextId), documentId, structuringId, data, inference, store.modelPath, now)
  {
    var result := store.RecomputePrediction(documentId, structuringId, data, inference, now);
    if result.Failure? {
      MarkRowFailed(store, documentId, result.error, now);
    }
  }

  /** The table after delete_prediction_internal. */
  function Deleted(rows: seq<Prediction>, documentId: DocId): seq<Prediction>
  {
    match FindDocument(rows, documentId)
    case None => rows
    case Some(k) => rows[..k] + rows[k + 1..]
  }

  /** Afterwards the document has no row, and exactly the other documents' rows remain. */
  lemma DeleteLeavesNoRow(rows: seq<Prediction>, nextId: nat, documentId: DocId)
    requires WellKeyed(rows, nextId)
    ensures var after := Deleted(rows, documentId);
      && WellKeyed(after, nextId)
      && FindDocument(after, documentId).None?
      && forall p :: p in after <==> p in rows && p.documentId != documentId
  {
    var after := Deleted(rows, documentId);
    match FindDocument(rows, documentId)
    case None =>
      assert after == rows;
    case Some(k) =>
      assert after == rows[..k] + rows[k + 1..];
      RemoveRow(rows, nextId, k);
      NoRowFound(after, documentId);
  }

  lemma NoRowFound(rows: seq<Prediction>, documentId: DocId)
    requires forall i :: 0 <= i < |rows| ==> rows[i].documentId != documentId
    ensures FindDocument(rows, documentId).None?
  {
  }

  /** Deleting the only row of a document: what remains is well keyed and is every other row. */
  lemma RemoveRow(rows: seq<Prediction>, nextId: nat, k: nat)
    requires WellKeyed(rows, nextId) && k < |rows|
    ensures var after := rows[..k] + rows[k + 1..];
      && WellKeyed(after, nextId)
      && (forall i :: 0 <= i < |after| ==> after[i].documentId != rows[k].documentId)
      && forall p :: p in after <==> p in rows && p.documentId != rows[k].documentId
  {
    var after := rows[..k] + rows[k + 1..];
    RemoveShifts(rows, k);
    RemoveRowKeys(rows, nextId, k, after);
    RemoveRowMembers(rows, nextId, k, after);
  }

  lemma RemoveShifts<T>(s: seq<T>, k: nat)
    requires k < |s|
    ensures var after := s[..k] + s[k + 1..];
      && |after| == |s| - 1
      && (forall i :: 0 <= i < k ==> after[i] == s[i])
      && (forall i :: k <= i < |after| ==> after[i] == s[i + 1])
  {
  }

  lemma RemoveRowKeys(rows: seq<Prediction>, nextId: nat, k: nat, after: seq<Prediction>)
    requires WellKeyed(rows, nextId) && k < |rows| && |after| == |rows| - 1
    requires forall i :: 0 <= i < k ==> after[i] == rows[i]
    requires forall i :: k <= i < |after| ==> after[i] == rows[i + 1]
    ensures WellKeyed(after, nextId)
    ensures forall i :: 0 <= i < |after| ==> after[i].documentId != rows[k].documentId
  {
    forall i, j | 0 <= i < j < |after|
      ensures after[i].documentId != after[j].documentId && after[i].id != after[j].id
    {
      var i', j' := if i < k then i else i + 1, if j < k then j else j + 1;
      assert after[i] == rows[i'] && after[j] == rows[j'];
    }
    forall i | 0 <= i < |after| ensures after[i].documentId != rows[k].documentId && after[i].id < nextId {
      var i' := if i < k then i else i + 1;
      assert after[i] == rows[i'];
    }
  }

  lemma RemoveRowMembers(rows: seq<Prediction>, nextId: nat, k: nat, after: seq<Prediction>)
    requires WellKeyed(rows, nextId) && k < |rows| && |after| == |rows| - 1
    requires forall i :: 0 <= i < k ==> after[i] == rows[i]
    requires forall i :: k <= i < |after| ==> after[i] == rows[i + 1]
    requires forall i :: 0 <= i < |after| ==> after[i].documentId != rows[k].documentId
    ensures forall p :: p in after <==> p in rows && p.documentId != rows[k].documentId
  {
    forall p | p in after ensures p in rows {
      var i :| 0 <= i < |after| && after[i] == p;
      if i < k { assert rows[i] == p; } else { assert rows[i + 1] == p; }
    }
    forall p | p in rows && p.documentId != rows[k].documentId ensures p in after {
      var i :| 0 <= i < |rows| && rows[i] == p;
      if i < k { assert after[i] == p; } else { assert after[i - 1] == p; }
    }
  }

  /** delete_prediction_internal: the same reply whether or not a row existed. */
  method DeletePredictionInternal(store: PredictionStore, documentId: DocId) returns (message: string)
    requires store.Valid()
    modifies store
    ensures store.Valid()
    ensures store.rows == Deleted(old(store.rows), documentId) && store.nextId == old(store.nextId)
    ensures message == DELETED_MESSAGE
  {
    var row := FindDocument(store.rows, documentId);
    if row.Some? {
      store.Remove(row.value);
    }
    message := DELETED_MESSAGE;
  }

  /** ReviewStatusUpdate. */
  datatype ReviewUpdate = ReviewUpdate(reviewStatus: string, coordinatorNotes: Option<string>)

  /** The claims of the caller's token the routes read. */
  datatype Caller = Caller(role: Option<string>, sub: Option<string>)

  /** The review fields written over an existing row. */
  function WithReview(p: Prediction, update: ReviewUpdate, reviewer: Option<string>, now: nat): Prediction
  {
    p.(reviewStatus := update.reviewStatus, coordinatorNotes := update.coordinatorNotes, reviewedBy := reviewer,
       reviewedAt := Some(now), updatedAt := now)
  }

  /** The row a review creates for a document that has none yet. */
  function ReviewPlaceholder(id: nat, documentId: DocId, update: ReviewUpdate, reviewer: Option<string>, now: nat): Prediction
  {
    Prediction(id, documentId, None, UNKNOWN, UNKNOWN, PENDING, update.reviewStatus, update.coordinatorNotes, reviewer,
               Some(now), MODEL_VERSION, None, None, PENDING, None, now, now)
  }

  /** The table after update_review_status' upsert. */
  function Reviewed(rows: seq<Prediction>, nextId: nat, documentId: DocId, update: ReviewUpdate, reviewer: Option<string>,
                    now: nat): Table
  {
    match FindDocument(rows, documentId)
    case None => Table(rows + [ReviewPlaceholder(nextId, documentId, update, reviewer, now)], nextId + 1)
    case Some(k) => Table(rows[k := WithReview(rows[k], update, reviewer, now)], nextId)
  }

  /**
   * After a review the document has exactly one row carrying the review.
   * An existing row keeps its id, its prediction and its status; a new one
   * is pending with risk level "pending". No other row changes.
   */
  lemma ReviewUpsert(rows: seq<Prediction>, nextId: nat, documentId: DocId, update: ReviewUpdate, reviewer: Option<string>, now: nat)
    requires WellKeyed(rows, nextId)
    ensures var t := Reviewed(rows, nextId, documentId, update, reviewer, now);
      && WellKeyed(t.rows, t.nextId)
      && FindDocument(t.rows, documentId).Some?
      && var p := t.rows[FindDocument(t.rows, documentId).value];
      && p.reviewStatus == update.reviewStatus && p.coordinatorNotes == update.coordinatorNotes
      && p.reviewedBy == reviewer && p.reviewedAt == Some(now)
      && (FindDocument(rows, documentId).None? ==>
            && |t.rows| == |rows| + 1 && p.status == PENDING && p.riskLevel == PENDING && p.predictedLabelId == UNKNOWN)
      && (FindDocument(rows, documentId).Some? ==>
            && |t.rows| == |rows|
            && var q := rows[FindDocument(rows, documentId).value];
            && p.id == q.id && p.createdAt == q.createdAt && p.status == q.status && p.errorMessage == q.errorMessage
            && p.predictedBirads == q.predictedBirads && p.predictedLabelId == q.predictedLabelId && p.riskLevel == q.riskLevel)
      && forall i :: 0 <= i < |rows| && rows[i].documentId != documentId ==> t.rows[i] == rows[i]
  {
    var t := Reviewed(rows, nextId, documentId, update, reviewer, now);
    match FindDocument(rows, documentId)
    case None =>
      AppendKeepsKeys(rows, nextId, t.rows[|rows|]);
      assert t.rows == rows + [t.rows[|rows|]];
      FindDocumentUnique(t.rows, t.nextId, documentId, |rows|);
    case Some(k) =>
      ReplaceKeepsKeys(rows, nextId, k, t.rows[k]);
      FindDocumentUnique(t.rows, t.nextId, documentId, k);
  }

  /** The 500 detail the route builds from the ValueError int() raises. */
  const INT_FAILURE := "Update failed: invalid literal for int() with base 10: "

  /** The reply of the review route as written: int() on the stored label, which rejects "unknown". */
  function ReviewReplyAsWritten(p: Prediction): Result<PredictionResult, HttpError>
  {
    if IsDigits(p.predictedLabelId) then Success(View(p, DigitsValue(p.predictedLabelId)))
    else Failure(HttpError(500, INT_FAILURE + "'" + p.predictedLabelId + "'"))
  }

  /** As written, reviewing a document without a prediction stores the review and still answers 500. */
  lemma FreshReviewFailsAsWritten(rows: seq<Prediction>, nextId: nat, documentId: DocId, update: ReviewUpdate,
                                  reviewer: Option<string>, now: nat)
    requires WellKeyed(rows, nextId) && FindDocument(rows, documentId).None?
    ensures var t := Reviewed(rows, nextId, documentId, update, reviewer, now);
      && FindDocument(t.rows, documentId).Some?
      && var r := ReviewReplyAsWritten(t.rows[FindDocument(t.rows, documentId).value]);
      && r.Failure? && r.error.code == 500
  {
    ReviewUpsert(rows, nextId, documentId, update, reviewer, now);
    assert !IsDigit(UNKNOWN[0]);
  }

  /**
   * As written, every row whose label is "unknown" (a placeholder, a queued
   * prediction, a failed one) makes the review answer 500 with int()'s message.
   */
  lemma UnknownLabelFailsAsWritten(p: Prediction)
    requires p.predictedLabelId == UNKNOWN
    ensures ReviewReplyAsWritten(p) == Failure(HttpError(500, INT_FAILURE + "'unknown'"))
  {
    assert !IsDigit(p.predictedLabelId[0]);
    assert INT_FAILURE + "'" + p.predictedLabelId + "'" == INT_FAILURE + "'unknown'";
  }

  /** The reply of the review route, reading the label as the other reads do. */
  function ReviewReply(p: Prediction): Result<PredictionResult, HttpError>
  {
    Success(ResultOf(p))
  }

  /** On every label a completed prediction stores, the corrected reply agrees with the one as written. */
  lemma ReviewReplyAgrees(p: Prediction, n: nat)
    requires p.predictedLabelId == NatToString(n)
    ensures ReviewReplyAsWritten(p) == ReviewReply(p)
    ensures ReviewReply(p).value.predictedLabelId == n
  {
    DigitsRoundTrip(n);
  }

  /** With the corrected reply, the review of a document without a prediction answers with label id 0. */
  lemma FreshReviewAnswers(rows: seq<Prediction>, nextId: nat, documentId: DocId, update: ReviewUpdate,
                           reviewer: Option<string>, now: nat)
    requires WellKeyed(rows, nextId) && FindDocument(rows, documentId).None?
    ensures var t := Reviewed(rows, nextId, documentId, update, reviewer, now);
      && FindDocument(t.rows, documentId).Some?
      && var r := ReviewReply(t.rows[FindDocument(t.rows, documentId).value]);
      && r.Success? && r.value.predictedLabelId == 0 && r.value.reviewStatus == update.reviewStatus
      && r.value.status == PENDING
  {
    ReviewUpsert(rows, nextId, documentId, update, reviewer, now);
    LabelIdOnReadStoredLabels(0);
  }

  /** The upsert of update_review_status: the table becomes Reviewed(...) and k is the document's row. */
  method ApplyReview(store: PredictionStore, reviewer: Option<string>, documentId: DocId, update: ReviewUpdate, now: nat)
    returns (k: nat)
    requires store.Valid()
    modifies store
    ensures store.Valid()
    ensures Table(store.rows, store.nextId) == Reviewed(old(store.rows), old(store.nextId), documentId, update, reviewer, now)
    ensures FindDocument(store.rows, documentId) == Some(k) && k < |store.rows|
  {
    ReviewUpsert(store.rows, store.nextId, documentId, update, reviewer, now);
    var row := FindDocument(store.rows, documentId);
    if row.None? {
      store.Insert(ReviewPlaceholder(store.nextId, documentId, update, reviewer, now));
    } else {
      store.Replace(row.value, WithReview(store.rows[row.value], update, reviewer, now));
    }
    k := FindDocument(store.rows, documentId).value;
  }

  /**
   * update_review_status as written: coordinators only, then the upsert,
   * committed before the reply is built, and the reply with int() on the label.
   */
  method UpdateReviewStatus(store: PredictionStore, caller: Caller, documentId: DocId, update: ReviewUpdate, now: nat)
    returns (r: Result<PredictionResult, HttpError>)
    requires store.Valid()
    modifies store
    ensures store.Valid()
    ensures caller.role != Some(COORDINATOR) ==>
      r == Failure(FORBIDDEN) && store.rows == old(store.rows) && store.nextId == old(store.nextId)
    ensures caller.role == Some(COORDINATOR) ==>
      && Table(store.rows, store.nextId) == Reviewed(old(store.rows), old(store.nextId), documentId, update, caller.sub, now)
      && FindDocument(store.rows, documentId).Some?
      && r == ReviewReplyAsWritten(store.rows[FindDocument(store.rows, documentId).value])
  {
    if caller.role != Some(COORDINATOR) {
      return Failure(FORBIDDEN);
    }
    var k := ApplyReview(store, caller.sub, documentId, update, now);
    r := ReviewReplyAsWritten(store.rows[k]);
  }

  /** update_review_status with the corrected reply, which answers for every row. */
  method UpdateReviewStatusCorrected(store: PredictionStore, caller: Caller, documentId: DocId, update: ReviewUpdate, now: nat)
    returns (r: Result<PredictionResult, HttpError>)
    requires store.Valid()
    modifies store
    ensures store.Valid()
    ensures caller.role != Some(COORDINATOR) ==>
      r == Failure(FORBIDDEN) && store.rows == old(store.rows) && store.nextId == old(store.nextId)
    ensures caller.role == Some(COORDINATOR) ==>
      && Table(store.rows, store.nextId) == Reviewed(old(store.rows), old(store.nextId), documentId, update, caller.sub, now)
      && FindDocument(store.rows, documentId).Some?
      && r == ReviewReply(store.rows[FindDocument(store.rows, documentId).value])
      && r.Success?
  {
    if caller.role != Some(COORDINATOR) {
      return Failure(FORBIDDEN);
    }
    var k := ApplyReview(store, caller.sub, documentId, update, now);
    r := ReviewReply(store.rows[k]);
  }
}
