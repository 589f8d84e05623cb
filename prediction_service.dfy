/**
 * The risk-prediction service around the model: the report text built
 * from structured fields, the BI-RADS risk lookup, and the
 * check-then-insert of generate_prediction over the predictions table,
 * where document_id is unique.
 */
module PredictionService {
  import opened Wrappers
  import opened Common
  import opened Text
  import opened Seqs
  import opened RiskConfig

  /** A row of the predictions table; confidence, probabilities and processing time are not modelled. */
  datatype Prediction = Prediction(
    id: nat,
    documentId: DocId,
    structuringId: Option<string>,
    predictedBirads: string,
    predictedLabelId: string,
    riskLevel: string,
    reviewStatus: string,
    coordinatorNotes: Option<string>,
    reviewedBy: Option<string>,
    reviewedAt: Option<nat>,
    modelVersion: string,
    modelPath: Option<string>,
    inputText: Option<string>,
    status: string,
    errorMessage: Option<string>,
    createdAt: nat,
    updatedAt: nat)

  /** What the model makes of the report: a label id and its BI-RADS name, or the error inference raises. */
  datatype Inference = Inferred(labelId: nat, birads: string) | InferenceFailed(message: string)

  /** The column defaults of review_status and model_version. */
  const NEW_REVIEW: string := "New"
  const MODEL_VERSION: string := "biogpt-v1"

  /** Every value of a structured-data field the model does not know is this. */
  const UNKNOWN: string := "unknown"

  /** The default sentence, written in two pieces so that its characters are cheap to reach. */
  const DEFAULT_REPORT: string := "Mammography report " + "with limited information available."

  /** A structured-data key and the label it is written under. */
  datatype Field = Field(key: string, caption: string)

  /** The fields of the report text, in the order they are written. */
  const REPORT_FIELDS: seq<Field> := [
    Field("reason", "Reason"),
    Field("age", "Age"),
    Field("children", "Children"),
    Field("lmp", "LMP"),
    Field("hormonal_therapy", "Hormonal Therapy"),
    Field("family_history", "Family History"),
    Field("observations", "Observations"),
    Field("conclusion", "Conclusion"),
    Field("recommendations", "Recommendations")
  ]

  /** A field is written when it is present, non-empty and not "unknown". */
  predicate Contributes(data: map<string, string>, key: string)
  {
    key in data && data[key] != "" && data[key] != UNKNOWN
  }

  /** The "<Label>: <value>" parts of the fields that contribute, in field order. */
  function Parts(data: map<string, string>, fields: seq<Field>): (r: seq<string>)
    ensures |r| <= |fields|
    decreases |fields|
  {
    if fields == [] then []
    else
      var f := fields[0];
      (if Contributes(data, f.key) then [f.caption + ": " + data[f.key]] else []) + Parts(data, fields[1..])
  }

  /** _prepare_text_from_structured_data: the parts joined by single spaces, or the default sentence when that is short. */
  function PrepareText(data: map<string, string>): (r: string)
    ensures r == DEFAULT_REPORT || |Strip(r)| >= 20
  {
    var text := Join(Parts(data, REPORT_FIELDS), " ");
    if |Strip(text)| < 20 then DEFAULT_REPORT else text
  }

  /** Every prepared text is at least 20 characters long once stripped, the default sentence included. */
  lemma PreparedTextLongEnough(data: map<string, string>)
    ensures |Strip(PrepareText(data))| >= 20
  {
    var r := PrepareText(data);
    if r == DEFAULT_REPORT {
      ReportUnpadded(r);
    }
  }

  lemma ReportUnpadded(r: string)
    requires r == DEFAULT_REPORT
    ensures |r| > 0 && !IsSpace(r[0]) && !IsSpace(r[|r| - 1]) && Strip(r) == r
  {
    StripUnpadded(r);
  }

  /** The parts are exactly the labelled values of the contributing fields. */
  lemma {:induction false} PartsMembers(data: map<string, string>, fields: seq<Field>)
    ensures forall s :: s in Parts(data, fields) <==>
      exists i :: 0 <= i < |fields| && Contributes(data, fields[i].key) && s == fields[i].caption + ": " + data[fields[i].key]
  {
    if fields != [] {
      PartsMembers(data, fields[1..]);
      assert forall i :: 1 <= i < |fields| ==> fields[i] == fields[1..][i - 1];
      forall s | exists i :: 0 <= i < |fields| && Contributes(data, fields[i].key) && s == fields[i].caption + ": " + data[fields[i].key]
        ensures s in Parts(data, fields)
      {
        var i :| 0 <= i < |fields| && Contributes(data, fields[i].key) && s == fields[i].caption + ": " + data[fields[i].key];
        if i > 0 {
          assert fields[1..][i - 1] == fields[i];
        }
      }
    }
  }

  /**
   * The parts depend only on which fields contribute and on their values:
   * a missing field, an empty one and an "unknown" one are alike.
   */
  lemma {:induction false} PartsAgree(d1: map<string, string>, d2: map<string, string>, fields: seq<Field>)
    requires forall i :: 0 <= i < |fields| ==>
      && (Contributes(d1, fields[i].key) <==> Contributes(d2, fields[i].key))
      && (Contributes(d1, fields[i].key) ==> d1[fields[i].key] == d2[fields[i].key])
    ensures Parts(d1, fields) == Parts(d2, fields)
  {
    if fields != [] {
      assert forall i :: 0 <= i < |fields| - 1 ==> fields[1..][i] == fields[i + 1];
      PartsAgree(d1, d2, fields[1..]);
    }
  }

  /** A key that is not one of the report fields, such as "birads", never changes the text. */
  lemma ExtraKeyIgnored(data: map<string, string>, key: string, value: string)
    requires forall i :: 0 <= i < |REPORT_FIELDS| ==> REPORT_FIELDS[i].key != key
    ensures PrepareText(data[key := value]) == PrepareText(data)
  {
    PartsAgree(data[key := value], data, REPORT_FIELDS);
  }

  lemma BiradsIsNotAField()
    ensures forall i :: 0 <= i < |REPORT_FIELDS| ==> REPORT_FIELDS[i].key != "birads"
  {
  }

  /** Setting a field to "unknown" is the same as leaving it out. */
  lemma UnknownIsAbsent(data: map<string, string>, key: string)
    ensures PrepareText(data[key := UNKNOWN]) == PrepareText(data - {key})
  {
    PartsAgree(data[key := UNKNOWN], data - {key}, REPORT_FIELDS);
  }

  /** With no contributing field the text is the default sentence. */
  lemma NothingKnown(data: map<string, string>)
    requires forall i :: 0 <= i < |REPORT_FIELDS| ==> !Contributes(data, REPORT_FIELDS[i].key)
    ensures PrepareText(data) == DEFAULT_REPORT
  {
    PartsMembers(data, REPORT_FIELDS);
  }

  /** The level of the first entry, in table order, whose list holds the score; "unknown" when none does. */
  function LevelFor(table: seq<Threshold>, score: string): string
    decreases |table|
  {
    if table == [] then UNKNOWN
    else if score in table[0].scores then table[0].level
    else LevelFor(table[1..], score)
  }

  /** _determine_risk_level */
  function DetermineRiskLevel(birads: string): string
  {
    LevelFor(RISK_THRESHOLDS, birads)
  }

  /** LevelFor finds the first entry listing the score, or reports "unknown" when none does. */
  lemma {:induction false} LevelForIsFirst(table: seq<Threshold>, score: string)
    ensures (forall i :: 0 <= i < |table| ==> score !in table[i].scores) ==> LevelFor(table, score) == UNKNOWN
    ensures forall k :: 0 <= k < |table| && score in table[k].scores && (forall j :: 0 <= j < k ==> score !in table[j].scores) ==>
      LevelFor(table, score) == table[k].level
  {
    if table != [] {
      LevelForIsFirst(table[1..], score);
      assert forall j :: 1 <= j < |table| ==> table[j] == table[1..][j - 1];
    }
  }

  /** The BI-RADS scores and their risk levels; any other string, "unknown" included, has level "unknown". */
  lemma RiskLevels(score: string)
    ensures score in {"4", "5", "6"} ==> DetermineRiskLevel(score) == "high"
    ensures score == "3" ==> DetermineRiskLevel(score) == "medium"
    ensures score in {"1", "2"} ==> DetermineRiskLevel(score) == "low"
    ensures score == "0" ==> DetermineRiskLevel(score) == "needs_assessment"
    ensures score !in BIRADS_SCORES ==> DetermineRiskLevel(score) == UNKNOWN
  {
    if score in BIRADS_SCORES {
      ListedScoreLevels(score);
    } else {
      UnlistedScoreLevel(score);
    }
  }

  lemma ListedScoreLevels(score: string)
    requires score in BIRADS_SCORES
    ensures score in {"4", "5", "6"} ==> DetermineRiskLevel(score) == "high"
    ensures score == "3" ==> DetermineRiskLevel(score) == "medium"
    ensures score in {"1", "2"} ==> DetermineRiskLevel(score) == "low"
    ensures score == "0" ==> DetermineRiskLevel(score) == "needs_assessment"
  {
    var t := RISK_THRESHOLDS;
    assert t[0].scores == ["4", "5", "6"] && t[1].scores == ["3"] && t[2].scores == ["1", "2"] && t[3].scores == ["0"];
    LevelForIsFirst(t, score);
  }

  lemma UnlistedScoreLevel(score: string)
    requires score !in BIRADS_SCORES
    ensures DetermineRiskLevel(score) == UNKNOWN
  {
    ThresholdsCoverScores();
    LevelForIsFirst(RISK_THRESHOLDS, score);
  }

  /** The row inference produces: status "completed", model "biogpt-v1" and the first 500 characters of the text. */
  function CompletedPrediction(id: nat, documentId: DocId, structuringId: Option<string>, text: string, labelId: nat,
                               birads: string, modelPath: string, now: nat): Prediction
  {
    Prediction(id, documentId, structuringId, birads, NatToString(labelId), DetermineRiskLevel(birads),
               NEW_REVIEW, None, None, None, MODEL_VERSION, Some(modelPath), Some(text[..Min(500, |text|)]),
               "completed", None, now, now)
  }

  /** The row a failed generation stores: every result "unknown", status "failed" and the error. */
  function FailedPrediction(id: nat, documentId: DocId, structuringId: Option<string>, message: string, now: nat): Prediction
  {
    Prediction(id, documentId, structuringId, UNKNOWN, UNKNOWN, UNKNOWN, NEW_REVIEW, None, None, None, MODEL_VERSION,
               None, None, "failed", Some(message), now, now)
  }

  function ForDocument(documentId: DocId): Prediction -> bool
  {
    (p: Prediction) => p.documentId == documentId
  }

  function WithId(id: nat): Prediction -> bool
  {
    (p: Prediction) => p.id == id
  }

  /** The row of a document, as the query on the unique document_id finds it. */
  function FindDocument(rows: seq<Prediction>, documentId: DocId): (r: Option<nat>)
    ensures r.Some? ==> r.value < |rows| && rows[r.value].documentId == documentId
    ensures r.None? <==> forall i :: 0 <= i < |rows| ==> rows[i].documentId != documentId
  {
    FirstIndex(rows, ForDocument(documentId))
  }

  /** The table's keys: one row per document and per prediction id, and every id below the next one. */
  ghost predicate WellKeyed(rows: seq<Prediction>, nextId: nat)
  {
    && (forall i, j :: 0 <= i < j < |rows| ==> rows[i].documentId != rows[j].documentId)
    && (forall i, j :: 0 <= i < j < |rows| ==> rows[i].id != rows[j].id)
    && (forall i :: 0 <= i < |rows| ==> rows[i].id < nextId)
  }

  /** With one row per document, the row found is the only row of that document. */
  lemma FindDocumentUnique(rows: seq<Prediction>, nextId: nat, documentId: DocId, k: nat)
    requires WellKeyed(rows, nextId)
    requires k < |rows| && rows[k].documentId == documentId
    ensures FindDocument(rows, documentId) == Some(k)
  {
  }

  /** Appending a row for a new document under the next id keeps the table well keyed. */
  lemma AppendKeepsKeys(rows: seq<Prediction>, nextId: nat, p: Prediction)
    requires WellKeyed(rows, nextId)
    requires FindDocument(rows, p.documentId).None? && p.id == nextId
    ensures WellKeyed(rows + [p], nextId + 1)
  {
  }

  /** Overwriting a row without changing its document or id keeps the table well keyed. */
  lemma ReplaceKeepsKeys(rows: seq<Prediction>, nextId: nat, k: nat, p: Prediction)
    requires WellKeyed(rows, nextId)
    requires k < |rows| && p.documentId == rows[k].documentId && p.id == rows[k].id
    ensures WellKeyed(rows[k := p], nextId)
  {
  }

  /** What a generation leaves in the table, and what it returns or raises. */
  datatype Generation = Generation(rows: seq<Prediction>, nextId: nat, result: Result<Prediction, string>)

  /**
   * generate_prediction: an existing row of the document is returned as it
   * is; otherwise the inference result, or its failure, is stored as a new
   * row, and a failure is raised again.
   */
  function Generate(rows: seq<Prediction>, nextId: nat, documentId: DocId, structuringId: Option<string>,
                    data: map<string, string>, inference: Inference, modelPath: string, now: nat): Generation
  {
    match FindDocument(rows, documentId)
    case Some(k) => Generation(rows, nextId, Success(rows[k]))
    case None =>
      match inference
      case Inferred(labelId, birads) =>
        var p := CompletedPrediction(nextId, documentId, structuringId, PrepareText(data), labelId, birads, modelPath, now);
        Generation(rows + [p], nextId + 1, Success(p))
      case InferenceFailed(message) =>
        var p := FailedPrediction(nextId, documentId, structuringId, message, now);
        Generation(rows + [p], nextId + 1, Failure(message))
  }

  /** A generation keeps one row per document and per id. */
  lemma GenerateKeepsKeys(rows: seq<Prediction>, nextId: nat, documentId: DocId, structuringId: Option<string>,
                          data: map<string, string>, inference: Inference, modelPath: string, now: nat)
    requires WellKeyed(rows, nextId)
    ensures var g := Generate(rows, nextId, documentId, structuringId, data, inference, modelPath, now);
      WellKeyed(g.rows, g.nextId)
  {
    if FindDocument(rows, documentId).None? {
      var g := Generate(rows, nextId, documentId, structuringId, data, inference, modelPath, now);
      AppendKeepsKeys(rows, nextId, g.rows[|rows|]);
      assert g.rows == rows + [g.rows[|rows|]];
    }
  }

  /**
   * A document without a row gains exactly one: "completed" with the
   * inference's label, its risk level, model "biogpt-v1" and at most 500
   * characters of the prepared text when inference succeeds, and "failed"
   * with every result "unknown" when it does not.
   */
  lemma GenerateNewRow(rows: seq<Prediction>, nextId: nat, documentId: DocId, structuringId: Option<string>,
                       data: map<string, string>, inference: Inference, modelPath: string, now: nat)
    requires FindDocument(rows, documentId).None?
    ensures var g := Generate(rows, nextId, documentId, structuringId, data, inference, modelPath, now);
      && |g.rows| == |rows| + 1 && g.rows[..|rows|] == rows
      && var p := g.rows[|rows|];
      && p.documentId == documentId && p.id == nextId
      && (p.status == "completed" <==> inference.Inferred?)
      && (inference.Inferred? ==>
            && g.result == Success(p)
            && p.predictedBirads == inference.birads
            && p.riskLevel == DetermineRiskLevel(inference.birads)
            && p.predictedLabelId == NatToString(inference.labelId)
            && p.modelVersion == MODEL_VERSION && p.modelPath == Some(modelPath)
            && p.inputText.Some? && |p.inputText.value| == Min(500, |PrepareText(data)|)
            && StartsWith(PrepareText(data), p.inputText.value))
      && (inference.InferenceFailed? ==>
            && g.result == Failure(inference.message)
            && p.status == "failed" && p.errorMessage == Some(inference.message)
            && p.predictedBirads == UNKNOWN && p.predictedLabelId == UNKNOWN && p.riskLevel == UNKNOWN)
  {
    var g := Generate(rows, nextId, documentId, structuringId, data, inference, modelPath, now);
    assert g.rows == rows + [g.rows[|rows|]];
    match inference
    case Inferred(labelId, birads) =>
      var text := PrepareText(data);
      assert g.rows[|rows|] == CompletedPrediction(nextId, documentId, structuringId, text, labelId, birads, modelPath, now);
    case InferenceFailed(message) =>
      assert g.rows[|rows|] == FailedPrediction(nextId, documentId, structuringId, message, now);
  }

  /**
   * Asking again for a document returns the row the first request left,
   * failed or not, and writes nothing.
   */
  lemma GenerateIdempotent(rows: seq<Prediction>, nextId: nat, documentId: DocId, structuringId: Option<string>,
                           data: map<string, string>, inference: Inference, modelPath: string, now: nat,
                           structuringId2: Option<string>, data2: map<string, string>, inference2: Inference, now2: nat)
    requires WellKeyed(rows, nextId)
    ensures var g1 := Generate(rows, nextId, documentId, structuringId, data, inference, modelPath, now);
      var g2 := Generate(g1.rows, g1.nextId, documentId, structuringId2, data2, inference2, modelPath, now2);
      && g2.rows == g1.rows && g2.nextId == g1.nextId
      && (g1.result.Success? ==> g2.result == g1.result)
      && (g1.result.Failure? ==> g2.result.Success? && g2.result.value.status == "failed")
  {
    var g1 := Generate(rows, nextId, documentId, structuringId, data, inference, modelPath, now);
    GenerateKeepsKeys(rows, nextId, documentId, structuringId, data, inference, modelPath, now);
    match FindDocument(rows, documentId)
    case Some(k) =>
    case None =>
      FindDocumentUnique(g1.rows, g1.nextId, documentId, |rows|);
  }

  /**
   * generate_prediction as its caller in the background task means it,
   * with force_recompute=True: an existing row of the document is
   * overwritten in place with the new result, keeping its id, its creation
   * time and its review fields, and a failure marks that row "failed".
   * Without a row this is Generate.
   */
  function Recompute(rows: seq<Prediction>, nextId: nat, documentId: DocId, structuringId: Option<string>,
                     data: map<string, string>, inference: Inference, modelPath: string, now: nat): Generation
  {
    match FindDocument(rows, documentId)
    case None => Generate(rows, nextId, documentId, structuringId, data, inference, modelPath, now)
    case Some(k) =>
      var previous := rows[k];
      match inference
      case Inferred(labelId, birads) =>
        var computed := CompletedPrediction(previous.id, documentId, structuringId, PrepareText(data), labelId, birads, modelPath, now);
        var p := computed.(reviewStatus := previous.reviewStatus, coordinatorNotes := previous.coordinatorNotes,
                           reviewedBy := previous.reviewedBy, reviewedAt := previous.reviewedAt, createdAt := previous.createdAt);
        Generation(rows[k := p], nextId, Success(p))
      case InferenceFailed(message) =>
        var p := previous.(status := "failed", errorMessage := Some(message), updatedAt := now);
        Generation(rows[k := p], nextId, Failure(message))
  }

  /**
   * After a recomputation the document has exactly one row: it is
   * "completed" exactly when inference succeeded, carries the inference's
   * BI-RADS score and risk level then, and keeps the id of the row it
   * replaced; every other row is untouched.
   */
  lemma RecomputeOverwrites(rows: seq<Prediction>, nextId: nat, documentId: DocId, structuringId: Option<string>,
                            data: map<string, string>, inference: Inference, modelPath: string, now: nat)
    requires WellKeyed(rows, nextId)
    ensures var g := Recompute(rows, nextId, documentId, structuringId, data, inference, modelPath, now);
      && WellKeyed(g.rows, g.nextId)
      && FindDocument(g.rows, documentId).Some?
      && var p := g.rows[FindDocument(g.rows, documentId).value];
      && (p.status == "completed" <==> inference.Inferred?)
      && (inference.Inferred? ==> p.predictedBirads == inference.birads && p.riskLevel == DetermineRiskLevel(inference.birads))
      && (inference.InferenceFailed? ==> p.status == "failed" && p.errorMessage == Some(inference.message))
      && (FindDocument(rows, documentId).Some? ==>
            && |g.rows| == |rows| && g.nextId == nextId
            && p.id == rows[FindDocument(rows, documentId).value].id
            && forall i :: 0 <= i < |rows| && rows[i].documentId != documentId ==> g.rows[i] == rows[i])
  {
    var g := Recompute(rows, nextId, documentId, structuringId, data, inference, modelPath, now);
    match FindDocument(rows, documentId)
    case None =>
      RecomputeWithoutRow(rows, nextId, documentId, structuringId, data, inference, modelPath, now);
    case Some(k) =>
      RecomputeWithRow(rows, nextId, documentId, structuringId, data, inference, modelPath, now, k);
  }

  lemma RecomputeWithoutRow(rows: seq<Prediction>, nextId: nat, documentId: DocId, structuringId: Option<string>,
                            data: map<string, string>, inference: Inference, modelPath: string, now: nat)
    requires WellKeyed(rows, nextId) && FindDocument(rows, documentId).None?
    ensures var g := Recompute(rows, nextId, documentId, structuringId, data, inference, modelPath, now);
      && WellKeyed(g.rows, g.nextId)
      && FindDocument(g.rows, documentId) == Some(|rows|)
      && var p := g.rows[|rows|];
      && (p.status == "completed" <==> inference.Inferred?)
      && (inference.Inferred? ==> p.predictedBirads == inference.birads && p.riskLevel == DetermineRiskLevel(inference.birads))
      && (inference.InferenceFailed? ==> p.status == "failed" && p.errorMessage == Some(inference.message))
  {
    var g := Recompute(rows, nextId, documentId, structuringId, data, inference, modelPath, now);
    assert g == Generate(rows, nextId, documentId, structuringId, data, inference, modelPath, now);
    GenerateKeepsKeys(rows, nextId, documentId, structuringId, data, inference, modelPath, now);
    GenerateNewRow(rows, nextId, documentId, structuringId, data, inference, modelPath, now);
    FindDocumentUnique(g.rows, g.nextId, documentId, |rows|);
  }

  lemma RecomputeWithRow(rows: seq<Prediction>, nextId: nat, documentId: DocId, structuringId: Option<string>,
                         data: map<string, string>, inference: Inference, modelPath: string, now: nat, k: nat)
    requires WellKeyed(rows, nextId) && FindDocument(rows, documentId) == Some(k)
    ensures var g := Recompute(rows, nextId, documentId, structuringId, data, inference, modelPath, now);
      && WellKeyed(g.rows, g.nextId)
      && FindDocument(g.rows, documentId) == Some(k)
      && |g.rows| == |rows| && g.nextId == nextId
      && var p := g.rows[k];
      && p.id == rows[k].id
      && (p.status == "completed" <==> inference.Inferred?)
      && (inference.Inferred? ==> p.predictedBirads == inference.birads && p.riskLevel == DetermineRiskLevel(inference.birads))
      && (inference.InferenceFailed? ==> p.status == "failed" && p.errorMessage == Some(inference.message))
      && forall i :: 0 <= i < |rows| && i != k ==> g.rows[i] == rows[i]
  {
    var g := Recompute(rows, nextId, documentId, structuringId, data, inference, modelPath, now);
    ReplaceKeepsKeys(rows, nextId, k, g.rows[k]);
    FindDocumentUnique(g.rows, g.nextId, documentId, k);
  }

  /** The service object with its session's predictions table. */
  class PredictionStore {
    /** The predictions table, in insertion order. */
    var rows: seq<Prediction>
    /** The id the next inserted row receives. */
    var nextId: nat
    /** The model directory recorded on completed rows. */
    const modelPath: string

    ghost predicate Valid()
      reads this
    {
      WellKeyed(rows, nextId)
    }

    constructor (modelPath: string)
      ensures Valid()
      ensures rows == [] && nextId == 0 && this.modelPath == modelPath
    {
      rows := [];
      nextId := 0;
      this.modelPath := modelPath;
    }

    /** Inserts a row under the next id. */
    method Insert(p: Prediction)
      requires Valid() && FindDocument(rows, p.documentId).None? && p.id == nextId
      modifies this`rows, this`nextId
      ensures Valid()
      ensures rows == old(rows) + [p] && nextId == old(nextId) + 1
    {
      AppendKeepsKeys(rows, nextId, p);
      rows := rows + [p];
      nextId := nextId + 1;
    }

    /** Overwrites row k with a row of the same document and id. */
    method Replace(k: nat, p: Prediction)
      requires Valid() && k < |rows| && p.documentId == rows[k].documentId && p.id == rows[k].id
      modifies this`rows
      ensures Valid()
      ensures rows == old(rows)[k := p]
    {
      ReplaceKeepsKeys(rows, nextId, k, p);
      rows := rows[k := p];
    }

    /** Deletes row k. */
    method Remove(k: nat)
      requires Valid() && k < |rows|
      modifies this`rows
      ensures Valid()
      ensures rows == old(rows)[..k] + old(rows)[k + 1..]
    {
      rows := rows[..k] + rows[k + 1..];
    }

    /** The recomputation the background task asks for, as Recompute states it. */
    method RecomputePrediction(documentId: DocId, structuringId: Option<string>, data: map<string, string>,
                               inference: Inference, now: nat) returns (r: Result<Prediction, string>)
      requires Valid()
      modifies this`rows, this`nextId
      ensures Valid()
      ensures Generation(rows, nextId, r) == Recompute(old(rows), old(nextId), documentId, structuringId, data, inference, modelPath, now)
    {
      var existing := FindDocument(rows, documentId);
      if existing.None? {
        r := GeneratePrediction(documentId, structuringId, data, inference, now);
        return;
      }
      r := RecomputeRow(existing.value, documentId, structuringId, data, inference, now);
    }

    /** The recomputation over the document's existing row k. */
    method RecomputeRow(k: nat, documentId: DocId, structuringId: Option<string>, data: map<string, string>,
                        inference: Inference, now: nat) returns (r: Result<Prediction, string>)
      requires Valid() && FindDocument(rows, documentId) == Some(k)
      modifies this`rows
      ensures Valid()
      ensures Generation(rows, nextId, r) == Recompute(old(rows), nextId, documentId, structuringId, data, inference, modelPath, now)
    {
      var previous := rows[k];
      match inference
      case Inferred(labelId, birads) =>
        var computed := CompletedPrediction(previous.id, documentId, structuringId, PrepareText(data), labelId, birads, modelPath, now);
        var p := computed.(reviewStatus := previous.reviewStatus, coordinatorNotes := previous.coordinatorNotes,
                           reviewedBy := previous.reviewedBy, reviewedAt := previous.reviewedAt, createdAt := previous.createdAt);
        Replace(k, p);
        r := Success(p);
      case InferenceFailed(message) =>
        Replace(k, previous.(status := "failed", errorMessage := Some(message), updatedAt := now));
        r := Failure(message);
    }

    /** generate_prediction, with inference, the model path and the clock as inputs. */
    method GeneratePrediction(documentId: DocId, structuringId: Option<string>, data: map<string, string>,
                              inference: Inference, now: nat) returns (r: Result<Prediction, string>)
      requires Valid()
      modifies this`rows, this`nextId
      ensures Valid()
      ensures Generation(rows, nextId, r) == Generate(old(rows), old(nextId), documentId, structuringId, data, inference, modelPath, now)
    {
      var existing := FindDocument(rows, documentId);
      if existing.Some? {
        return Success(rows[existing.value]);
      }
      var text := PrepareText(data);
      match inference
      case Inferred(labelId, birads) =>
        var p := CompletedPrediction(nextId, documentId, structuringId, text, labelId, birads, modelPath, now);
        Insert(p);
        r := Success(p);
      case InferenceFailed(message) =>
        var p := FailedPrediction(nextId, documentId, structuringId, message, now);
        Insert(p);
        r := Failure(message);
    }
  }
}
