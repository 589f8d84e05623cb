# odomos-dsi document pipeline, modelled in Dafny

This project models the coordination and bookkeeping code of a three-stage
mammography-report pipeline:

- **Document ingestion.** Upload validation (size, extension, content type, ZIP signature rescue).
  - ZIP member selection and extraction.
  - The document table and its append-only processing-status rows.
  - The filtered, paginated, newest-first listing.
  - The retrying hand-off to the parsing stage, including its backoff schedule.
  - The batched bulk dispatch.
  - The HTTP routes in front of all of this.
- **Document parsing.** The parse run: its progress writes, the upsert of the parsing result row, page-text joining for PDFs, and the status notifications and structuring trigger it sends.
- **Risk prediction.**
  - Preparing the report text from structured fields.
  - The BI-RADS to risk-level table.
  - The "return the existing prediction" rule of prediction generation.
  - The per-document upserts of the prediction routes: queueing, the background task, review updates and deletion.
  - The label-id conversion on reads and the reply-message rule.

Model structure:

- Pure code is modelled as datatypes and functions, with lemmas about them.
- Code that updates rows step by step is modelled as classes (`Ingestion.DocumentService`, `Parsing.ParsingService`, `PredictionService.PredictionStore`) whose methods are proved against specification functions.
- The prediction table is a sequence of rows. The class invariant says there is one row per document and per id, as the unique `document_id` column in `backend/risk-prediction/app/models/database.py:21` requires.
- Several inputs are parameters of the operations that use them rather than effects:
  - the network, as a function from document and attempt number to the outcome of that POST;
  - the clock, as a logical counter or a `now` argument;
  - the storage naming function;
  - libmagic's answer;
  - the archive's members;
  - pypdf's page texts;
  - the inference result.
- Ids that are UUIDs in the source are natural numbers handed out by a counter.

Files, one module each:

| file | content |
|---|---|
| `wrappers.dfy` | `Option`, `Result`, `Min`; the shared `Common` types |
| `text.dfy` | the Python string operations used (lower-casing, strip, join, split, path suffixes, `str(n)`) |
| `seqs.dfy` | filter, map, reverse and windows on sequences |
| `ingestion_config.dfy` | size limits, allowed extensions and content types, batch and retry defaults |
| `validation.dfy` | `validate_upload_file` and its three checks |
| `retry.dfy` | the classification of each attempt, the backoff schedule and the dispatch run |
| `batching.dfy` | batch count and bounds, and the partition of the rows |
| `ingestion_store.dfy` | the document service as a class |
| `document_routes.dfy` | the ingestion routes |
| `parsing_service.dfy` | the parsing service as a class |
| `risk_config.dfy` | `RISK_THRESHOLDS` |
| `prediction_service.dfy` | prediction generation and the prediction table |
| `prediction_routes.dfy` | the prediction routes |

## Model

| member | source | states |
|---|---|---|
| IngestionConfig.SizeLimits | backend/document-ingestion/app/config.py:20-21 | the document limit is 10 MiB and the ZIP limit 100 MiB |
| IngestionConfig.ExtensionsAreDottedLowerCase | backend/document-ingestion/app/config.py:22 | every allowed extension is lower case and starts with a dot |
| IngestionConfig.ZipMimeTypes | backend/document-ingestion/app/config.py:23-31 | application/zip and application/x-zip-compressed are allowed; application/x-zip and application/octet-stream are not |
| Validation.ValidateUploadFile | backend/document-ingestion/app/utils/validation.py:74-91 | a missing filename fails first, then size (413, only when the size is known and over the limit), then extension (400), then content; every error is 400 or 413; on success the name, size and extension pass, the type is allowed when libmagic is present and is the detected type itself when that is allowed, and the preview is the first 1024 bytes at most |
| Validation.FallbackNeverRejects | backend/document-ingestion/app/utils/validation.py:59-70 | without libmagic the content check always passes, with one of the five fallback types |
| Validation.ZipSignatureRescue | backend/document-ingestion/app/utils/validation.py:47-52 | a stripped ".zip" name with a disallowed detected type and a PK signature is accepted as application/zip |
| Validation.AllowedDetectionStands | backend/document-ingestion/app/utils/validation.py:44-56 | an allowed type from libmagic is accepted and returned unchanged |
| Text.TrimTrailing | backend/document-ingestion/app/utils/validation.py:28 | the path loses only trailing slashes and dots, and what is left ends in neither "/" nor "/." |
| Text.PathSuffixIgnoresTrailing | backend/document-ingestion/app/utils/validation.py:28-29 | a trailing "/" or "/." does not change the suffix |
| Validation.TrailingSlashKeepsExtension | backend/document-ingestion/app/utils/validation.py:26-34 | a name such as "report.pdf/" or "report.pdf/." has extension ".pdf" and passes the extension check |
| Validation.NoSignatureNoRescue | backend/document-ingestion/app/utils/validation.py:49-58 | without a ZIP signature a disallowed detected type is refused with that type |
| Validation.NeverXZip | backend/document-ingestion/app/utils/validation.py:37-72 | no accepted upload is typed application/x-zip |
| Validation.NoMagicSkipsContentCheck | backend/document-ingestion/app/utils/validation.py:79-89 | without libmagic, passing the name, size and extension checks is enough, and the type is the fallback guess |
| Validation.FallbackAcceptsUnlistedType | backend/document-ingestion/app/utils/validation.py:59-72 | without libmagic an allowed extension that the fallback does not recognise is accepted as application/octet-stream, a type outside the allowed set |
| Validation.DocxIsUnlisted | backend/document-ingestion/app/utils/validation.py:26-35 | "report.docx" has an allowed extension that the fallback does not recognise |
| Retry.ScheduleGeometric | backend/document-ingestion/app/services/document_service.py:220-240 | the first delay is RETRY_DELAY and each later one is the previous times RETRY_BACKOFF |
| Retry.ScheduleNonDecreasing | backend/document-ingestion/app/services/document_service.py:220-240 | with a backoff of at least 1 and a non-negative delay, the waits never shrink |
| Retry.Classify | backend/document-ingestion/app/services/document_service.py:209-262 | only 200 succeeds; 429 and 5xx always sleep; any other status fails with "HTTP <code>"; timeouts and connection errors sleep except on the last attempt, where they fail with the exception's message; any other exception fails at once with its message |
| Retry.RunDispatch | backend/document-ingestion/app/services/document_service.py:201-271 | the attempt loop yields exactly the run the dispatch function defines |
| Retry.DispatchFromCharacterised | backend/document-ingestion/app/services/document_service.py:201-271 | the loop sleeps the delays of the retrying attempts, calls up to and including the first attempt that stops, and ends with that attempt's outcome or with "Max retries exceeded" |
| Retry.DispatchBounds | backend/document-ingestion/app/services/document_service.py:201 | at most MAX_RETRIES calls; the delays are a prefix of the schedule, at most one per call |
| Retry.AcceptedIff | backend/document-ingestion/app/services/document_service.py:211-218 | the hand-off is accepted exactly when some attempt gets 200 after only retrying attempts, and that attempt is the last call |
| Retry.StopsAtFirstStop | backend/document-ingestion/app/services/document_service.py:211-262 | the first stopping attempt is the last call, after the delays of the earlier attempts |
| Retry.ClientErrorStops | backend/document-ingestion/app/services/document_service.py:229-237 | any other status fails at once with "HTTP <code>" |
| Retry.PersistentOverload | backend/document-ingestion/app/services/document_service.py:219-228 | when every attempt gets 429 or 5xx, the loop sleeps after each attempt, the last included, and then fails with "Max retries exceeded" |
| Retry.PersistentTimeout | backend/document-ingestion/app/services/document_service.py:239-253 | repeated timeouts sleep between attempts but not after the last, and record its error text |
| Retry.NoAttempts | backend/document-ingestion/app/services/document_service.py:264-271 | with no attempts allowed, nothing is called and the run fails |
| Retry.DefaultSchedule | backend/document-ingestion/app/config.py:55-57 | the default delays are 5, 10 and 20 seconds |
| Retry.ThreeServerErrorsExhaust | backend/document-ingestion/app/services/document_service.py:224-228 | three 503s exhaust the defaults after 35 seconds of sleep, even if a fourth attempt would succeed |
| Retry.RunSoFarRetry | backend/document-ingestion/app/services/document_service.py:219-243 | a retrying attempt adds its backoff delay and one call |
| Retry.RunSoFarStop | backend/document-ingestion/app/services/document_service.py:211-262 | a stopping attempt ends the run with its outcome |
| Retry.RunSoFarExhausted | backend/document-ingestion/app/services/document_service.py:264-271 | running out of attempts ends with "Max retries exceeded" |
| Batching.BatchCountIsCeiling | backend/document-ingestion/app/services/document_service.py:350 | the batch count is the ceiling of n / BATCH_SIZE |
| Batching.BatchBounds | backend/document-ingestion/app/services/document_service.py:351-354 | each batch is a non-empty slice of at most BATCH_SIZE rows; every batch but the last is full and the last ends at n |
| Batching.BatchAt | backend/document-ingestion/app/services/document_service.py:352-354 | batch b is rows[b*size .. min((b+1)*size, n)) |
| Batching.FlattenPrefix | backend/document-ingestion/app/services/document_service.py:351-354 | the first k batches together are the rows before batch k's start |
| Batching.BatchesPartition | backend/document-ingestion/app/services/document_service.py:350-365 | every row is dispatched exactly once, in creation order |
| Batching.BatchStep | backend/document-ingestion/app/services/document_service.py:352-353 | each batch starts where the previous one ended |
| Batching.TwelveDocuments | backend/document-ingestion/app/services/document_service.py:350-370 | twelve rows go out as ten and then two, with one pause |
| Ingestion.ParsingRecord | backend/document-ingestion/app/services/document_service.py:211-271 | the dispatch's one record is "document_parsing": "processing" exactly when accepted, otherwise "failed" with the detail |
| Ingestion.FindById | backend/document-ingestion/app/services/document_service.py:74-76 | a row is found exactly when one has the id |
| Ingestion.FindUnique | backend/document-ingestion/app/services/document_service.py:74-76 | with increasing ids, the lookup returns the row carrying the id |
| Ingestion.PatchedFound | backend/document-ingestion/app/services/document_service.py:102-111 | after a status patch of an existing document, looking its id up finds the patched row |
| Ingestion.PatchedDocument | backend/document-ingestion/app/services/document_service.py:102-111 | a status patch changes the row's status and update time and nothing else |
| Ingestion.PatchLeavesOthers | backend/document-ingestion/app/services/document_service.py:102-111 | a status patch leaves every other row unchanged |
| Ingestion.WithStatusChronological | backend/document-ingestion/app/services/document_service.py:102-111 | a patch stamped with the clock keeps the table chronological |
| Ingestion.DeleteRemoves | backend/document-ingestion/app/services/document_service.py:113-165 | after the cascade delete the document and all its status rows are gone |
| Ingestion.DeleteKeepsOthers | backend/document-ingestion/app/services/document_service.py:113-165 | the cascade delete keeps every other document and its rows, in order |
| Ingestion.NewestFirstMembers | backend/document-ingestion/app/services/document_service.py:88-95 | the listing holds exactly the documents that pass the filters |
| Ingestion.NewestFirstOrdered | backend/document-ingestion/app/services/document_service.py:95 | the listing is strictly newest first |
| Ingestion.FilterChronological | backend/document-ingestion/app/services/document_service.py:113-165 | removing rows keeps the table chronological |
| Ingestion.AppendNewChronological | backend/document-ingestion/app/services/document_service.py:44-56 | a row with the next id and the current time keeps the table chronological |
| Ingestion.RecordsPerDocument | backend/document-ingestion/app/services/document_service.py:324-370 | after a bulk upload each new document has its ingestion record, then its parsing record, and no other new record |
| Ingestion.PageOffsetIsProduct | backend/document-ingestion/app/services/document_service.py:98 | the page offset is (page - 1) * limit |
| Ingestion.PageOfPosition | backend/document-ingestion/app/services/document_service.py:98 | position q of the listing lies on page q / limit + 1 at index q % limit |
| Ingestion.DocumentService.constructor | backend/document-ingestion/app/services/document_service.py:21-22 | a service starts with no documents and no status rows |
| Ingestion.DocumentService.GetDocument | backend/document-ingestion/app/services/document_service.py:74-76 | a document is found exactly when one has the id |
| Ingestion.DocumentService.GetDocuments | backend/document-ingestion/app/services/document_service.py:78-100 | the total counts every matching row; the page holds at most limit rows, taken from the newest-first listing at offset (page - 1) * limit |
| Ingestion.DocumentService.PageRowsMatch | backend/document-ingestion/app/services/document_service.py:88-92 | every row of a page passes the filters |
| Ingestion.DocumentService.PageNewestFirst | backend/document-ingestion/app/services/document_service.py:95 | a page is newest first |
| Ingestion.DocumentService.EveryMatchOnItsPage | backend/document-ingestion/app/services/document_service.py:97-98 | every matching row appears on exactly the page its position gives |
| Ingestion.DocumentService.GetProcessingStatuses | backend/document-ingestion/app/services/document_service.py:167-171 | the result holds each of the document's status rows exactly as many times as the table does, and no other row |
| Ingestion.DocumentService.AddProcessingStatus | backend/document-ingestion/app/services/document_service.py:173-190 | a new row is always appended and no existing row changes |
| Ingestion.DocumentService.UpdateDocumentStatus | backend/document-ingestion/app/services/document_service.py:102-111 | false for an unknown id, with nothing changed; otherwise the document is patched |
| Ingestion.DocumentService.DeleteDocument | backend/document-ingestion/app/services/document_service.py:113-165 | false for an unknown id, with nothing changed; otherwise the document and its status rows go |
| Ingestion.DocumentService.InsertDocument | backend/document-ingestion/app/services/document_service.py:44-58 | the new row is appended under the next id at the current time |
| Ingestion.DocumentService.UploadDocument | backend/document-ingestion/app/services/document_service.py:24-72 | one new "uploaded" row, then its completed ingestion record, then exactly one parsing record |
| Ingestion.DocumentService.AddDocuments | backend/document-ingestion/app/services/document_service.py:294-321 | one new row per file, in order |
| Ingestion.DocumentService.RecordIngestion | backend/document-ingestion/app/services/document_service.py:324-335 | one completed ingestion record per new row, in order |
| Ingestion.DocumentService.DispatchBatch | backend/document-ingestion/app/services/document_service.py:358-365 | a batch appends one parsing record per row, in order |
| Ingestion.DocumentService.DispatchInBatches | backend/document-ingestion/app/services/document_service.py:350-370 | every row is dispatched once, in order, with a pause after every batch but the last |
| Ingestion.DocumentService.UploadDocumentsBulk | backend/document-ingestion/app/services/document_service.py:273-373 | all new rows, then all ingestion records, then one parsing record per row in creation order; the pauses number the batches minus one |
| Ingestion.DocumentService.TriggerParsingService | backend/document-ingestion/app/services/document_service.py:192-271 | exactly one "document_parsing" record describing how the dispatch ended; the delays and calls are those of the run |
| DocumentRoutes.SelectPdfEntriesMembers | backend/document-ingestion/app/routes/documents.py:61-62 | a member is selected exactly when its lower-cased name ends in ".pdf" and it is outside "__MACOSX" |
| DocumentRoutes.ReadByNameLast | backend/document-ingestion/app/routes/documents.py:74 | reading a member's name yields the bytes of the last member that carries that name |
| DocumentRoutes.DuplicateNameReadsLast | backend/document-ingestion/app/routes/documents.py:61-83 | two members under one name are both stored, each with the bytes of the later member |
| DocumentRoutes.ExtractedSingle | backend/document-ingestion/app/routes/documents.py:72-87 | a member yields its file under its base name when reading its name succeeds and it is not hidden, and nothing otherwise |
| DocumentRoutes.ExtractedAppend | backend/document-ingestion/app/routes/documents.py:71-87 | extraction keeps archive order |
| DocumentRoutes.NothingExtracted | backend/document-ingestion/app/routes/documents.py:92-96 | nothing is extracted exactly when no member is kept |
| DocumentRoutes.ExtractedMembers | backend/document-ingestion/app/routes/documents.py:77-83 | the files are exactly those of the kept members, each with the bytes read for its name, typed PDF and named without '/' |
| DocumentRoutes.ExtractPdfFiles | backend/document-ingestion/app/routes/documents.py:71-87 | the extraction loop collects exactly the extracted files |
| DocumentRoutes.ZipFiles | backend/document-ingestion/app/routes/documents.py:58-96 | a corrupt archive, no PDF names, or no extractable PDF each answer 400 in that order; otherwise at least one PDF file |
| DocumentRoutes.ZipHttpError | backend/document-ingestion/app/routes/documents.py:64-96 | each ZIP failure is a 400 |
| DocumentRoutes.ValidationHttpError | backend/document-ingestion/app/utils/validation.py:20-58 | each validation failure raises its own status code |
| DocumentRoutes.UploadPlanFor | backend/document-ingestion/app/routes/documents.py:34-132 | validation failures are raised as they are; a ZIP type goes down the archive branch, any other type is stored as one file under its own name |
| DocumentRoutes.ResponsesOfNewDocuments | backend/document-ingestion/app/routes/documents.py:106-120 | each response of a fresh upload reports "uploaded" and the document's own name, size and type |
| DocumentRoutes.BuildResponses | backend/document-ingestion/app/routes/documents.py:106-122 | the loop answers every stored document, in order |
| DocumentRoutes.ReadZip | backend/document-ingestion/app/routes/documents.py:57-96 | the ZIP branch yields exactly what ZipFiles states |
| DocumentRoutes.StoreBulk | backend/document-ingestion/app/routes/documents.py:99-122 | the bulk branch stores every file through the bulk upload and answers each |
| DocumentRoutes.UploadDocumentRoute | backend/document-ingestion/app/routes/documents.py:24-152 | an error leaves the store as it was; a single file is stored with one row and two records; a ZIP stores one row per extracted PDF |
| DocumentRoutes.UploadZipBatchAsWritten | backend/document-ingestion/app/routes/documents.py:167-173 | every request fails: 400 exactly when the name does not end in ".zip", otherwise 500 |
| DocumentRoutes.ZipBatchRefusesGoodArchive | backend/document-ingestion/app/routes/documents.py:173 | every upload named "reports.zip", whatever its content, is answered with 500 |
| DocumentRoutes.ZipBatchPlan | backend/document-ingestion/app/routes/documents.py:169-220 | a name not ending in ".zip" is refused with 400 before anything else; success means validation passed and at least one PDF was extracted |
| DocumentRoutes.UploadZipBatch | backend/document-ingestion/app/routes/documents.py:154-269 | the corrected route stores every extracted file in one bulk upload, reports how many were stored, and lists each stored document by id, status, file info and creation time, with no per-document message |
| DocumentRoutes.BuildUploadedDocuments | backend/document-ingestion/app/routes/documents.py:244-257 | the loop lists every stored document, in order |
| DocumentRoutes.GetDocumentStatus | backend/document-ingestion/app/routes/documents.py:271-311 | 404 exactly for an unknown id; otherwise the document with its status rows, each as many times as the table holds it, and no other row |
| DocumentRoutes.ListDocuments | backend/document-ingestion/app/routes/documents.py:313-353 | 422 exactly when the page is below 1 or the limit is outside 1..100; otherwise the rows are the service page for the caller's uploader filter, each without its status history, with the filtered total |
| DocumentRoutes.ClinicAdminSeesOwnUploads | backend/document-ingestion/app/routes/documents.py:326 | with a non-empty sub, a clinic admin sees only its own uploads (an empty sub applies no filter) |
| DocumentRoutes.OtherRolesUnrestricted | backend/document-ingestion/app/routes/documents.py:326 | for other roles the page is the window at the page offset of the unfiltered newest-first listing of the requested status, and the total counts every such document |
| DocumentRoutes.DeleteDocumentRoute | backend/document-ingestion/app/routes/documents.py:355-369 | 404 exactly when the document is unknown, with both tables unchanged; otherwise the document and all its status rows are removed and nothing else |
| DocumentRoutes.UpdateDocumentStatusInternal | backend/document-ingestion/app/routes/documents.py:397-417 | 404 exactly when the document is unknown, with nothing changed; otherwise only that document takes the status and the current time, the clock ticks, and the status rows stay |
| DocumentRoutes.UpdateProcessingStatusInternal | backend/document-ingestion/app/routes/documents.py:373-395 | one new status row is appended, whatever the document |
| Parsing.CollectReadable | backend/document-parsing/app/services/parsing_service.py:182-192 | collecting succeeds exactly when every page reads, and then keeps the non-empty texts in page order |
| Parsing.CollectFirstBadPage | backend/document-parsing/app/services/parsing_service.py:183-192 | the first unreadable page decides the error |
| Parsing.ConvertedReadable | backend/document-parsing/app/services/parsing_service.py:182-198 | a readable PDF converts to its non-empty page texts joined by "\n\n" |
| Parsing.ConvertedEmpty | backend/document-parsing/app/services/parsing_service.py:182-198 | the text is empty exactly when no page had any |
| Parsing.ConvertDocument | backend/document-parsing/app/services/parsing_service.py:176-198 | the page loop computes the conversion |
| Parsing.MissingFileFailsFirst | backend/document-parsing/app/services/parsing_service.py:42-43 | a missing file fails before any progress write |
| Parsing.OnlyTextAndPdf | backend/document-parsing/app/services/parsing_service.py:51-87 | only .txt and .pdf, in any case, extract; any other extension fails after progress 5 |
| Parsing.SuccessTrace | backend/document-parsing/app/services/parsing_service.py:48-116 | a completed run writes 5,50,90,92,95,100 or 5,15,30,85,92,95,100, a strictly increasing sequence ending at 100 |
| Parsing.ExtractionTraceOnSuccess | backend/document-parsing/app/services/parsing_service.py:48-83 | a successful extraction writes one of the two fixed progress runs |
| Parsing.FinalRecordOutcome | backend/document-parsing/app/services/parsing_service.py:102-165 | the row is "completed" with progress 100, no error and the text exactly when the run succeeds; otherwise "failed" with progress 0, no text and the error |
| Parsing.RunNotifications | backend/document-parsing/app/services/parsing_service.py:124-132 | success sends "completed"/"parsed" and then one structuring request; failure sends "failed" with the error and "uploaded", and no structuring request; a raising POST drops only the coarse patch |
| Parsing.ProgressKeepsContent | backend/document-parsing/app/services/parsing_service.py:200-222 | a progress write changes only status and progress, and creates a row with empty text when none exists |
| Parsing.ParsingService.constructor | backend/document-parsing/app/services/parsing_service.py:31-33 | a service starts with no rows and nothing sent |
| Parsing.ParsingService.UpdateParsingProgress | backend/document-parsing/app/services/parsing_service.py:200-229 | the document's row is upserted, no other row changes, and the write is logged |
| Parsing.ParsingService.UpdateDocumentStatus | backend/document-parsing/app/services/parsing_service.py:236-270 | the fine status is always posted; the coarse patch follows only when it is non-empty and the POST did not raise |
| Parsing.ParsingService.TriggerStructuring | backend/document-parsing/app/services/parsing_service.py:272-300 | exactly one request, not retried; its failure changes nothing |
| Parsing.ParsingService.ExtractText | backend/document-parsing/app/services/parsing_service.py:42-87 | extraction yields the specified text or error, with its progress writes, and changes no other row |
| Parsing.ParsingService.ReadTextFile | backend/document-parsing/app/services/parsing_service.py:57-62 | the text branch writes 50 and, after a successful read, 90 |
| Parsing.ParsingService.ReadPdfFile | backend/document-parsing/app/services/parsing_service.py:64-83 | the PDF branch writes 15 and 30 and, after a successful conversion, 85 |
| Parsing.ParsingService.ParseDocument | backend/document-parsing/app/services/parsing_service.py:35-174 | the row ends as FinalRecord states, the progress trace and the notifications are those of the run, and it returns the row or re-raises the error |
| Parsing.ParsingService.Conclude | backend/document-parsing/app/services/parsing_service.py:93-174 | the rest of the run once extraction has ended |
| Parsing.ParsingService.SaveText | backend/document-parsing/app/services/parsing_service.py:93-134 | writes 92 and 95, the completed row, then the notifications |
| Parsing.ParsingService.RecordFailure | backend/document-parsing/app/services/parsing_service.py:141-168 | the row becomes failed with the error, and ingestion is told "uploaded"/"failed" |
| RiskConfig.ThresholdsDisjoint | backend/risk-prediction/app/config.py:33-38 | no score is listed under two levels |
| RiskConfig.ThresholdsCoverScores | backend/risk-prediction/app/config.py:33-38 | the lists together hold exactly "0" to "6" |
| PredictionService.Parts | backend/risk-prediction/app/services/prediction_service.py:52-85 | at most one part per field |
| PredictionService.PartsMembers | backend/risk-prediction/app/services/prediction_service.py:55-85 | the parts are exactly "<Label>: <value>" for the fields that are present, non-empty and not "unknown" |
| PredictionService.PartsAgree | backend/risk-prediction/app/services/prediction_service.py:55-85 | the parts depend only on which fields contribute and their values |
| PredictionService.PrepareText | backend/risk-prediction/app/services/prediction_service.py:88-94 | the text is the default sentence or has stripped length at least 20 |
| PredictionService.PreparedTextLongEnough | backend/risk-prediction/app/services/prediction_service.py:91-94 | every prepared text has stripped length at least 20 |
| PredictionService.ExtraKeyIgnored | backend/risk-prediction/app/services/prediction_service.py:48-85 | a key outside the nine fields never changes the text |
| PredictionService.BiradsIsNotAField | backend/risk-prediction/app/services/prediction_service.py:49 | "birads" is not one of the fields |
| PredictionService.UnknownIsAbsent | backend/risk-prediction/app/services/prediction_service.py:55-85 | a field set to "unknown" is the same as a missing one |
| PredictionService.NothingKnown | backend/risk-prediction/app/services/prediction_service.py:91-92 | with no contributing field the text is the default sentence |
| PredictionService.LevelForIsFirst | backend/risk-prediction/app/services/prediction_service.py:96-101 | the level is that of the first entry in table order listing the score, or "unknown" |
| PredictionService.RiskLevels | backend/risk-prediction/app/config.py:33-38 | 4, 5, 6 are high; 3 medium; 1, 2 low; 0 needs_assessment; any other string unknown |
| PredictionService.FindDocument | backend/risk-prediction/app/services/prediction_service.py:222-226 | the row found has the document; none is found exactly when no row has it |
| PredictionService.AppendKeepsKeys | backend/risk-prediction/app/models/database.py:16-21 | a new document's row under the next id keeps one row per document and per id |
| PredictionService.ReplaceKeepsKeys | backend/risk-prediction/app/models/database.py:16-21 | overwriting a row in place keeps the keys |
| PredictionService.GenerateKeepsKeys | backend/risk-prediction/app/services/prediction_service.py:103-220 | generation keeps one row per document and per id |
| PredictionService.GenerateNewRow | backend/risk-prediction/app/services/prediction_service.py:132-220 | a document without a row gains exactly one; on success it is "completed" with the label, BI-RADS, risk level, "biogpt-v1", the model path and the first 500 characters of the text, and otherwise "failed" with "unknown" results and the error, which is raised again |
| PredictionService.GenerateIdempotent | backend/risk-prediction/app/services/prediction_service.py:124-130 | asking again writes nothing and returns the row the first request left |
| PredictionService.RecomputeOverwrites | backend/risk-prediction/app/routes/predictions.py:195-201 | after a recomputation the document has one row, "completed" exactly when inference succeeded, with its results, and it keeps the id of an existing row |
| PredictionService.RecomputeWithRow | backend/risk-prediction/app/routes/predictions.py:195-201 | an existing row is overwritten in place, keeping id and review fields |
| PredictionService.RecomputeWithoutRow | backend/risk-prediction/app/services/prediction_service.py:132-220 | without a row, the recomputation appends one as a generation does |
| PredictionService.PredictionStore.constructor | backend/risk-prediction/app/services/prediction_service.py:20-26 | an empty table |
| PredictionService.PredictionStore.Insert | backend/risk-prediction/app/services/prediction_service.py:187-189 | a new document's row is appended under the next id |
| PredictionService.PredictionStore.Replace | backend/risk-prediction/app/routes/predictions.py:182-183 | a row is overwritten in place |
| PredictionService.PredictionStore.Remove | backend/risk-prediction/app/routes/predictions.py:240-242 | a row is removed |
| PredictionService.PredictionStore.GeneratePrediction | backend/risk-prediction/app/services/prediction_service.py:103-220 | the store ends as Generate states, with its result |
| PredictionService.PredictionStore.RecomputePrediction | backend/risk-prediction/app/routes/predictions.py:193-201 | the store ends as Recompute states |
| PredictionRoutes.ResponseMessageRule | backend/risk-prediction/app/routes/predictions.py:43-44 | "Prediction completed successfully" exactly for completed rows; every other row gets "Prediction failed: " and its error |
| PredictionRoutes.FailedInferenceAnswers500 | backend/risk-prediction/app/routes/predictions.py:47-48 | a failed inference answers 500 although its failed row is stored |
| PredictionRoutes.PendingRowReply | backend/risk-prediction/app/routes/predictions.py:39-45 | the pending row of a queued document is answered with "Prediction failed: None" |
| PredictionRoutes.PredictRisk | backend/risk-prediction/app/routes/predictions.py:23-48 | the store ends as Generate states, and the reply is the stored row's or a 500 |
| PredictionRoutes.LabelIdOnReadStoredLabels | backend/risk-prediction/app/routes/predictions.py:69 | a stored numeric label reads back as its number, "unknown" as 0 |
| PredictionRoutes.GetPredictionByDocument | backend/risk-prediction/app/routes/predictions.py:50-81 | 404 exactly when the document has no row; otherwise that row's result |
| PredictionRoutes.GetPrediction | backend/risk-prediction/app/routes/predictions.py:83-114 | 404 exactly when no row has the id; otherwise that row's result |
| PredictionRoutes.ReadBackCompleted | backend/risk-prediction/app/routes/predictions.py:64-81 | reading a new completed prediction reports its BI-RADS, risk level and label id |
| PredictionRoutes.QueueLeavesOnePendingRow | backend/risk-prediction/app/routes/predictions.py:165-184 | after queueing, the document has exactly one row and it is pending; a row is added only when none existed, and no other row changes |
| PredictionRoutes.PredictAsync | backend/risk-prediction/app/routes/predictions.py:154-228 | the store ends as Queue states, and the reply carries the row's id, "pending" and "Prediction queued" |
| PredictionRoutes.QueuedPredictionAlwaysFails | backend/risk-prediction/app/routes/predictions.py:196-211 | as written, every queued prediction ends failed with the TypeError text |
| PredictionRoutes.QueuedPredictionCompletes | backend/risk-prediction/app/routes/predictions.py:187-214 | with the recomputation, the queued row keeps its id and ends completed with the inference's results, or failed with its error |
| PredictionRoutes.BackgroundOverRow | backend/risk-prediction/app/routes/predictions.py:193-211 | the intended task over the document's row keeps the table's keys and the row's position |
| PredictionRoutes.MarkFailedRow | backend/risk-prediction/app/routes/predictions.py:206-211 | the failure handler sets the row failed with the error and keeps its id |
| PredictionRoutes.MarkRowFailed | backend/risk-prediction/app/routes/predictions.py:206-211 | the store ends as MarkFailed states |
| PredictionRoutes.BackgroundTaskAsWritten | backend/risk-prediction/app/routes/predictions.py:187-217 | the store ends as the as-written task states |
| PredictionRoutes.BackgroundTask | backend/risk-prediction/app/routes/predictions.py:187-217 | the store ends as the intended task states |
| PredictionRoutes.DeleteLeavesNoRow | backend/risk-prediction/app/routes/predictions.py:239-244 | afterwards the document has no row, and exactly the other documents' rows remain |
| PredictionRoutes.RemoveRow | backend/risk-prediction/app/routes/predictions.py:240-242 | removing the document's only row leaves every other row and the keys intact |
| PredictionRoutes.DeletePredictionInternal | backend/risk-prediction/app/routes/predictions.py:230-247 | the same reply whether or not a row existed; the store ends as Deleted states |
| PredictionRoutes.ReviewUpsert | backend/risk-prediction/app/routes/predictions.py:269-293 | after a review the document has exactly one row carrying it; an existing row keeps its id, prediction and status; a new one is pending with risk level "pending"; no other row changes |
| PredictionRoutes.FreshReviewFailsAsWritten | backend/risk-prediction/app/routes/predictions.py:272-303 | as written, reviewing a document without a prediction stores the review and answers 500 |
| PredictionRoutes.ReviewReplyAgrees | backend/risk-prediction/app/routes/predictions.py:298-315 | on every label a completed prediction stores, the corrected reply equals the one as written |
| PredictionRoutes.FreshReviewAnswers | backend/risk-prediction/app/routes/predictions.py:272-315 | with the corrected reply, a fresh review answers with label id 0 |
| PredictionRoutes.UpdateReviewStatus | backend/risk-prediction/app/routes/predictions.py:249-320 | as written: a role other than "gcf_coordinator" gets 403 and nothing changes; otherwise the store ends as Reviewed states and the reply is int() on the row's label, a 500 for a non-digit label |
| PredictionRoutes.ApplyReview | backend/risk-prediction/app/routes/predictions.py:269-296 | the store ends as Reviewed states and the returned index is the document's row |
| PredictionRoutes.UnknownLabelFailsAsWritten | backend/risk-prediction/app/routes/predictions.py:303-320 | as written, the review of any row labelled "unknown" (a placeholder, a queued or a failed prediction) answers 500 with int()'s message |
| PredictionRoutes.UpdateReviewStatusCorrected | backend/risk-prediction/app/routes/predictions.py:249-320 | corrected: the same state change, and a coordinator always gets the row's result |

## Left out

- Concurrency: batches are dispatched one row after another. The model has no `asyncio.gather` and no semaphore cap (`MAX_CONCURRENT_PARSING` is only a constant), and the background prediction task runs to completion at once rather than through `create_task`.
- Network and sleeps: the outcome of a request is an input wherever the source acts on it: each attempt of the ingestion-to-parsing dispatch, and whether the parsing status POST raises. The PATCH that follows it and the structuring request end their try blocks, and their failures are only logged, so the model records them as sent and nothing else. Sleeps are recorded as delays (and batch pauses as a count) rather than waited for; timeouts of 10 and 30 seconds are not modelled.
- The fire-and-forget delete notifications of `delete_document` have no observable effect and are left out.
- File I/O:
  - storage naming is an input function;
  - file writes, unlinks and `save_parsed_text` are left out, except that a save error is an input of the parse run;
  - the existence check and the read of a text file are inputs.
- External libraries are inputs: zipfile (the archive's members as namelist() lists them, each read by its name, where the last member of a duplicated name wins), pypdf (the page texts) and libmagic (the detected type).
- Clocks are logical counters or `now` arguments, and UUID ids are drawn from a counter.
- DocumentRoutes.GetDocumentStatus: the `created_at` of each processing-status row is not kept, so the reply's status entries carry no time. ProcessingStatus has no such field because no operation of the model orders or filters status rows by time.
- `processing_time`, `start_time` and logging are left out.
- Machine-learning numerics: the inference outcome is an input. Tokenising, softmax, argmax, confidence scores and the probability dictionary are left out, as are model loading and `is_model_loaded`.
- Database commits and rollbacks never fail in the model, and the 500 answers of `delete_prediction_internal` and the internal status routes are not modelled.
- Authentication: the role and `sub` claims arrive as inputs.
- Validation of FastAPI request bodies: only the page and limit bounds of `list_documents` are modelled, as a 422.
- `progress_message` is not a column the model keeps.
- ValidationHttpError: the order in which Python iterates the extension set in the error text is an input of the route.
- `get_parsing_result` and `get_parsing_result_by_id` are plain lookups that the parse run does not call.
- Text: lower-casing is ASCII-only, and `str.isdigit` is read as ASCII digits.
- Structured data: values are strings. Non-string values of the structured data are not modelled.
- Text.NatToString renders only non-negative numbers; the label id is an argmax and never negative.
- `int()` on a non-digit label is modelled by its error text only. Signs, whitespace and non-ASCII digits that Python's `int()` accepts are not modelled.
- PredictionService.RecomputeOverwrites: `generate_prediction` takes no `force_recompute` parameter. The recomputation it is proved about is our reading of the comment at `backend/risk-prediction/app/routes/predictions.py:195`: overwrite the pending row in place.
- Retry.Pow: delays are exact reals; the floating-point rounding of `RETRY_DELAY * RETRY_BACKOFF ** attempt` is not modelled.

## Findings

| source | as written | input that shows it | evidently intended | confidence | as-written member | corrected member |
|---|---|---|---|---|---|---|
| backend/document-ingestion/app/routes/documents.py:173 | `validate_upload_file(file, is_zip=True)`, but the function takes one parameter, so the TypeError becomes a 500 | any upload named "reports.zip", such as a well-formed archive holding one readable PDF | validate the archive (the size limit already follows the ".zip" name) and upload its PDFs | high, not executed | DocumentRoutes.ZipBatchRefusesGoodArchive | DocumentRoutes.UploadZipBatch |
| backend/risk-prediction/app/routes/predictions.py:200 | `generate_prediction(..., force_recompute=True)`, which the function does not accept, so the background task always fails | any queued prediction whose inference succeeds | recompute and overwrite the pending row | high, not executed | PredictionRoutes.QueuedPredictionAlwaysFails | PredictionRoutes.QueuedPredictionCompletes |
| backend/risk-prediction/app/routes/predictions.py:303 | `int(prediction.predicted_label_id)` on the label "unknown" raises after the commit, so the review is stored and answered with 500 | a review of a document that has no prediction yet, or whose prediction is queued or failed | read the label as the other reads do, with 0 for a non-digit label | high, not executed | PredictionRoutes.UnknownLabelFailsAsWritten | PredictionRoutes.UpdateReviewStatusCorrected |
