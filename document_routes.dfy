/**
 * The HTTP routes of the ingestion service: single and ZIP uploads, the
 * status and listing queries, delete, and the two internal status
 * endpoints used by the later stages. Each route either answers or raises
 * an HTTP error; authentication has already supplied the caller's claims.
 */
module DocumentRoutes {
  import opened Wrappers
  import opened Common
  import opened Text
  import opened Seqs
  import opened IngestionConfig
  import opened Validation
  import opened Ingestion

  /**
   * The JWT claims a route reads: `sub`, `role` when present, and the
   * `organization` claim: absent (None), present but null (Some(None)), or a
   * name.
   */
  datatype CurrentUser = CurrentUser(sub: string, role: Option<string>, organization: Option<Option<string>>)

  /** One member of an archive as namelist() lists it: its name, and its bytes, or None when reading it raises. */
  datatype ZipEntry = ZipEntry(name: string, data: Option<seq<byte>>)

  /** What zipfile makes of the uploaded bytes: not a ZIP archive, or its members in archive order. */
  datatype Archive = BadZip | Archive(entries: seq<ZipEntry>)

  /** The answer to a successful upload. */
  datatype UploadResponse = UploadResponse(uploadId: DocId, status: string, filename: string, size: nat,
                                           contentType: string, createdAt: nat, message: string)

  /** A single upload answers with one response, a ZIP upload with one per stored document. */
  datatype UploadReply = One(response: UploadResponse) | Many(responses: seq<UploadResponse>)

  /** One entry of the /upload-zip reply: upload_id, status, the file info and created_at, with no message. */
  datatype UploadedDocument = UploadedDocument(uploadId: DocId, status: string, filename: string, size: nat,
                                               contentType: string, createdAt: nat)

  /** The reply of /upload-zip: its message, the count, and the stored documents. */
  datatype ZipBatchReply = ZipBatchReply(message: string, totalDocuments: nat, documents: seq<UploadedDocument>)

  /** DocumentStatus: the document's fields and the status rows that go with it. */
  datatype DocumentView = DocumentView(uploadId: DocId, status: string, filename: string, size: nat, contentType: string,
                                       createdAt: nat, updatedAt: Option<nat>, clinicName: Option<string>,
                                       processingStatuses: seq<ProcessingStatus>)

  datatype DocumentList = DocumentList(documents: seq<DocumentView>, total: nat, page: nat, limit: nat)

  /** What an upload will store: one file, or the files taken from an archive. */
  datatype UploadPlan = Single(file: IncomingFile) | Bulk(files: seq<IncomingFile>)

  const PDF_MIME: string := "application/pdf"
  const BAD_ZIP_DETAIL: string := "Invalid or corrupted ZIP file"
  const NO_PDF_NAMES_DETAIL: string := "No PDF files found in the ZIP archive"
  const NO_VALID_DOCUMENTS_DETAIL: string := "No valid documents found in ZIP file"
  const NO_VALID_PDFS_DETAIL: string := "No valid PDF files could be extracted from the ZIP archive"
  const NOT_FOUND: HttpError := HttpError(404, "Document not found")
  const UPLOADED_MESSAGE: string := "Document uploaded successfully"
  const UNKNOWN_CLINIC: string := "Unknown Clinic"

  /** The three content types that send an upload down the ZIP branch. */
  predicate IsZipMime(mime: string)
  {
    mime == "application/zip" || mime in ["application/x-zip-compressed", "application/x-zip"]
  }

  /** current_user.get("organization", "Unknown Clinic"): the default only when the claim is absent; a null claim stays None. */
  function ClinicName(user: CurrentUser): Option<string>
  {
    if user.organization.Some? then user.organization.value else Some(UNKNOWN_CLINIC)
  }

  function Metadata(user: CurrentUser, patientId: Option<string>): UploadMetadata
  {
    UploadMetadata(user.sub, patientId)
  }

  /** An archive member the routes consider: a `.pdf` name, any case, outside `__MACOSX`. */
  predicate IsPdfEntry(e: ZipEntry)
  {
    EndsWith(Lower(e.name), ".pdf") && !StartsWith(e.name, "__MACOSX")
  }

  function SelectPdfEntries(entries: seq<ZipEntry>): seq<ZipEntry>
  {
    Filter(entries, IsPdfEntry)
  }

  /** The selection keeps exactly the PDF members, in archive order. */
  lemma SelectPdfEntriesMembers(entries: seq<ZipEntry>)
    ensures forall e :: e in SelectPdfEntries(entries) <==> e in entries && IsPdfEntry(e)
  {
    FilterMembers(entries, IsPdfEntry);
  }

  /** pdf_name.split('/')[-1] */
  function Basename(name: string): string
  {
    AfterLast(name, '/')
  }

  /**
   * zip_ref.read(name): zipfile looks the name up in an index that keeps the
   * last member under each name, so a duplicated name always reads the bytes
   * of its last member (None when that read raises, or no member has the name).
   */
  function ReadByName(entries: seq<ZipEntry>, name: string): Option<seq<byte>>
    decreases |entries|
  {
    if |entries| == 0 then None
    else if entries[|entries| - 1].name == name then entries[|entries| - 1].data
    else ReadByName(entries[..|entries| - 1], name)
  }

  /** Reading a name yields the bytes of the last member that carries it. */
  lemma {:induction false} ReadByNameLast(entries: seq<ZipEntry>, i: nat)
    requires i < |entries|
    requires forall j :: i < j < |entries| ==> entries[j].name != entries[i].name
    ensures ReadByName(entries, entries[i].name) == entries[i].data
    decreases |entries|
  {
    if i < |entries| - 1 {
      var init := entries[..|entries| - 1];
      assert init[i] == entries[i];
      forall j | i < j < |init| ensures init[j].name != init[i].name {
        assert init[j] == entries[j];
      }
      ReadByNameLast(init, i);
    }
  }

  /** A member the extraction loop keeps: reading its name succeeds, and it is not a hidden or system file. */
  predicate Kept(entries: seq<ZipEntry>, e: ZipEntry)
  {
    ReadByName(entries, e.name).Some? && !StartsWith(Basename(e.name), ".") && !StartsWith(Basename(e.name), "_")
  }

  /** The file a kept member becomes: the bytes read for its name under its base name, typed as PDF. */
  function ToFile(entries: seq<ZipEntry>, e: ZipEntry): IncomingFile
  {
    var data := ReadByName(entries, e.name);
    IncomingFile(if data.Some? then data.value else [], Basename(e.name), PDF_MIME)
  }

  function KeptIn(entries: seq<ZipEntry>): ZipEntry -> bool
  {
    e => Kept(entries, e)
  }

  function FileIn(entries: seq<ZipEntry>): ZipEntry -> IncomingFile
  {
    e => ToFile(entries, e)
  }

  /** The files the extraction loop collects from the selected members of the archive `entries`, in their order. */
  function Extracted(entries: seq<ZipEntry>, selected: seq<ZipEntry>): seq<IncomingFile>
  {
    Map(Filter(selected, KeptIn(entries)), FileIn(entries))
  }

  /** Extraction works member by member: the files of two runs of members are those of each, in order. */
  lemma ExtractedAppend(entries: seq<ZipEntry>, a: seq<ZipEntry>, b: seq<ZipEntry>)
    ensures Extracted(entries, a + b) == Extracted(entries, a) + Extracted(entries, b)
  {
    FilterAppend(a, b, KeptIn(entries));
    MapAppend(Filter(a, KeptIn(entries)), Filter(b, KeptIn(entries)), FileIn(entries));
  }

  /** One member gives its file when it is kept and nothing otherwise. */
  lemma ExtractedSingle(entries: seq<ZipEntry>, e: ZipEntry)
    ensures Extracted(entries, [e]) == if Kept(entries, e) then [ToFile(entries, e)] else []
  {
    FilterOne(e, KeptIn(entries));
  }

  /** Nothing is extracted exactly when no member is kept. */
  lemma NothingExtracted(entries: seq<ZipEntry>, selected: seq<ZipEntry>)
    ensures Extracted(entries, selected) == [] <==> forall i :: 0 <= i < |selected| ==> !Kept(entries, selected[i])
  {
    FilterMembers(selected, KeptIn(entries));
    if forall i :: 0 <= i < |selected| ==> !Kept(entries, selected[i]) {
      FilterNone(selected, KeptIn(entries));
    }
  }

  /**
   * The extracted files are exactly the files of the kept members: PDFs
   * named by a base name, so without any '/'; at most one per member.
   */
  lemma ExtractedMembers(entries: seq<ZipEntry>, selected: seq<ZipEntry>)
    ensures |Extracted(entries, selected)| <= |selected|
    ensures forall f :: f in Extracted(entries, selected) <==>
      exists i :: 0 <= i < |selected| && Kept(entries, selected[i]) && f == ToFile(entries, selected[i])
    ensures forall f :: f in Extracted(entries, selected) ==> f.contentType == PDF_MIME && '/' !in f.filename
  {
    var files := Extracted(entries, selected);
    MapFilterMembers(selected, KeptIn(entries), FileIn(entries));
    forall f | f in files ensures f.contentType == PDF_MIME && '/' !in f.filename {
      var i :| 0 <= i < |selected| && KeptIn(entries)(selected[i]) && f == FileIn(entries)(selected[i]);
      assert f == ToFile(entries, selected[i]);
    }
  }

  /**
   * Two members under one name, bytes x then y: both are selected, and both
   * are stored with the bytes y of the last one.
   */
  lemma DuplicateNameReadsLast(name: string, x: seq<byte>, y: seq<byte>)
    requires !StartsWith(Basename(name), ".") && !StartsWith(Basename(name), "_")
    ensures var entries := [ZipEntry(name, Some(x)), ZipEntry(name, Some(y))];
      Extracted(entries, entries) == [IncomingFile(y, Basename(name), PDF_MIME), IncomingFile(y, Basename(name), PDF_MIME)]
  {
    var entries := [ZipEntry(name, Some(x)), ZipEntry(name, Some(y))];
    ReadByNameLast(entries, 1);
    assert entries == [entries[0]] + [entries[1]];
    ExtractedAppend(entries, [entries[0]], [entries[1]]);
    ExtractedSingle(entries, entries[0]);
    ExtractedSingle(entries, entries[1]);
  }

  /** The extraction loop of both upload routes: each selected name is read from the archive `entries`. */
  method ExtractPdfFiles(entries: seq<ZipEntry>, selected: seq<ZipEntry>) returns (files: seq<IncomingFile>)
    ensures files == Extracted(entries, selected)
  {
    files := [];
    for k := 0 to |selected|
      invariant files == Extracted(entries, selected[..k])
    {
      var e := selected[k];
      assert selected[..k + 1] == selected[..k] + [e];
      ExtractedAppend(entries, selected[..k], [e]);
      ExtractedSingle(entries, e);
      var data := ReadByName(entries, e.name);
      if data.None? {
        continue;
      }
      var filename := Basename(e.name);
      if StartsWith(filename, ".") || StartsWith(filename, "_") {
        continue;
      }
      files := files + [IncomingFile(data.value, filename, PDF_MIME)];
    }
    assert selected[..|selected|] == selected;
  }

  /** Why a ZIP branch stops: a corrupt archive, no PDF member, or nothing left after extraction. */
  datatype ZipProblem = CorruptArchive | NoPdfNames | NothingExtractable

  /** The files a ZIP branch goes on with, or why it answers 400. */
  function ZipFiles(archive: Archive): (r: Result<seq<IncomingFile>, ZipProblem>)
    ensures r == Failure(CorruptArchive) <==> archive.BadZip?
    ensures r == Failure(NoPdfNames) <==>
      archive.Archive? && forall i :: 0 <= i < |archive.entries| ==> !IsPdfEntry(archive.entries[i])
    ensures r == Failure(NothingExtractable) <==>
      && archive.Archive?
      && (exists i :: 0 <= i < |archive.entries| && IsPdfEntry(archive.entries[i]))
      && forall i :: 0 <= i < |archive.entries| && IsPdfEntry(archive.entries[i]) ==> !Kept(archive.entries, archive.entries[i])
    ensures r.Success? ==> 0 < |r.value| <= |archive.entries| && forall f :: f in r.value ==> f.contentType == PDF_MIME
  {
    match archive
    case BadZip => Failure(CorruptArchive)
    case Archive(entries) =>
      var selected := SelectPdfEntries(entries);
      SelectPdfEntriesMembers(entries);
      if selected == [] then
        FilterNone(entries, IsPdfEntry);
        Failure(NoPdfNames)
      else
        assert selected[0] in entries;
        var files := Extracted(entries, selected);
        NothingExtracted(entries, selected);
        ExtractedMembers(entries, selected);
        if files == [] then
          assert forall i :: 0 <= i < |entries| && IsPdfEntry(entries[i]) ==> !Kept(entries, entries[i]) by {
            forall i | 0 <= i < |entries| && IsPdfEntry(entries[i]) ensures !Kept(entries, entries[i]) {
              assert entries[i] in selected;
            }
          }
          Failure(NothingExtractable)
        else
          var j :| 0 <= j < |selected| && Kept(entries, selected[j]);
          assert selected[j] in entries;
          Success(files)
  }

  /** The 400 a ZIP branch answers; `noneExtracted` is the route's own text for the last case. */
  function ZipHttpError(p: ZipProblem, noneExtracted: string): (r: HttpError)
    ensures r.code == 400
  {
    match p
    case CorruptArchive => HttpError(400, BAD_ZIP_DETAIL)
    case NoPdfNames => HttpError(400, NO_PDF_NAMES_DETAIL)
    case NothingExtractable => HttpError(400, noneExtracted)
  }

  /** The HTTP error a failed check raises; `extensionListing` is the text ', '.join(ALLOWED_EXTENSIONS) produces. */
  function ValidationHttpError(e: ValidationError, extensionListing: string): (r: HttpError)
    ensures r.code == e.Code()
  {
    match e
    case NoFilename => HttpError(400, "No filename provided")
    case TooLarge(maxSize) => HttpError(413, "File too large. Maximum size allowed: " + NatToString(maxSize / MEBIBYTE) + ".0MB")
    case ExtensionNotAllowed(_) => HttpError(400, "File type not allowed. Allowed types: " + extensionListing)
    case ContentNotAllowed(mime) => HttpError(400, "File content not allowed. Detected type: " + mime)
  }

  /**
   * What /upload will store, or the error it raises: validation first,
   * then, for a ZIP content type, the archive's PDF members; any other
   * type is stored as one file under its own name.
   */
  function UploadPlanFor(file: UploadFile, detector: Detector, archive: Archive, extensionListing: string)
    : (r: Result<UploadPlan, HttpError>)
    ensures r.Failure? ==> r.error.code in {400, 413}
    ensures ValidateUploadFile(file, detector).Failure? ==> r.Failure?
    ensures r.Success? && r.value.Single? ==>
      && HasName(file.filename)
      && r.value.file == IncomingFile(file.content, file.filename.value, ValidateUploadFile(file, detector).value.mimeType)
      && !IsZipMime(r.value.file.contentType)
    ensures r.Success? && r.value.Bulk? ==>
      && IsZipMime(ValidateUploadFile(file, detector).value.mimeType)
      && |r.value.files| > 0
      && forall f :: f in r.value.files ==> f.contentType == PDF_MIME
  {
    match ValidateUploadFile(file, detector)
    case Failure(e) => Failure(ValidationHttpError(e, extensionListing))
    case Success(accepted) =>
      if IsZipMime(accepted.mimeType) then
        match ZipFiles(archive)
        case Failure(p) => Failure(ZipHttpError(p, NO_VALID_DOCUMENTS_DETAIL))
        case Success(files) => Success(Bulk(files))
      else
        Success(Single(IncomingFile(file.content, file.filename.value, accepted.mimeType)))
  }

  function Respond(d: Document): UploadResponse
  {
    UploadResponse(d.id, d.status, d.originalFilename, d.fileSize, d.contentType, d.createdAt, UPLOADED_MESSAGE)
  }

  function Responses(docs: seq<Document>): (r: seq<UploadResponse>)
    ensures |r| == |docs|
  {
    seq(|docs|, k requires 0 <= k < |docs| => Respond(docs[k]))
  }

  /** Every response of a fresh upload reports status "uploaded" and the document's own name, size and type. */
  lemma ResponsesOfNewDocuments(files: seq<IncomingFile>, firstId: DocId, firstAt: nat, naming: (nat, string) -> StoredFile,
                                metadata: UploadMetadata, clinicName: Option<string>)
    ensures var r := Responses(NewDocuments(files, firstId, firstAt, naming, metadata, clinicName));
      forall k :: 0 <= k < |files| ==>
        r[k] == UploadResponse(firstId + k, UPLOADED, files[k].filename, |files[k].content|, files[k].contentType,
                               firstAt + k, UPLOADED_MESSAGE)
  {
  }

  /** The loop that turns the stored documents into responses. */
  method BuildResponses(docs: seq<Document>) returns (rs: seq<UploadResponse>)
    ensures rs == Responses(docs)
  {
    rs := [];
    for k := 0 to |docs|
      invariant rs == Responses(docs[..k])
    {
      rs := rs + [Respond(docs[k])];
    }
    assert docs[..|docs|] == docs;
  }

  function Uploaded(d: Document): UploadedDocument
  {
    UploadedDocument(d.id, d.status, d.originalFilename, d.fileSize, d.contentType, d.createdAt)
  }

  function UploadedDocuments(docs: seq<Document>): (r: seq<UploadedDocument>)
    ensures |r| == |docs|
  {
    seq(|docs|, k requires 0 <= k < |docs| => Uploaded(docs[k]))
  }

  /** The loop of /upload-zip that lists the stored documents. */
  method BuildUploadedDocuments(docs: seq<Document>) returns (us: seq<UploadedDocument>)
    ensures us == UploadedDocuments(docs)
  {
    us := [];
    for k := 0 to |docs|
      invariant us == UploadedDocuments(docs[..k])
    {
      us := us + [Uploaded(docs[k])];
    }
    assert docs[..|docs|] == docs;
  }

  /** The ZIP branch shared by both upload routes: open the archive, pick the PDF names, extract them. */
  method ReadZip(archive: Archive) returns (r: Result<seq<IncomingFile>, ZipProblem>)
    ensures r == ZipFiles(archive)
  {
    if archive.BadZip? {
      return Failure(CorruptArchive);
    }
    var selected := SelectPdfEntries(archive.entries);
    if selected == [] {
      return Failure(NoPdfNames);
    }
    var files := ExtractPdfFiles(archive.entries, selected);
    if files == [] {
      return Failure(NothingExtractable);
    }
    r := Success(files);
  }

  /** Stores the extracted files through upload_documents_bulk and answers each stored document. */
  method StoreBulk(service: DocumentService, files: seq<IncomingFile>, metadata: UploadMetadata, clinicName: Option<string>,
                   naming: (nat, string) -> StoredFile, network: Network)
    returns (responses: seq<UploadResponse>)
    requires service.Valid()
    modifies service
    ensures service.Valid()
    ensures var created := NewDocuments(files, old(service.nextId), old(service.clock), naming, metadata, clinicName);
      && responses == Responses(created)
      && service.documents == old(service.documents) + created
      && service.statuses == old(service.statuses) + IngestionRecords(created) + ParsingRecords(service.retry, created, network)
  {
    var created, pauses := service.UploadDocumentsBulk(files, naming, metadata, clinicName, network);
    responses := BuildResponses(created);
  }

  /**
   * POST /upload. An error leaves the store as it was; otherwise the plan's
   * files are stored through upload_document or upload_documents_bulk and
   * each stored document is answered.
   */
  method UploadDocumentRoute(service: DocumentService, file: UploadFile, detector: Detector, archive: Archive,
                             user: CurrentUser, patientId: Option<string>, naming: (nat, string) -> StoredFile,
                             network: Network, extensionListing: string)
    returns (r: Result<UploadReply, HttpError>)
    requires service.Valid()
    modifies service
    ensures service.Valid()
    ensures var plan := UploadPlanFor(file, detector, archive, extensionListing);
      && (plan.Failure? ==>
            r == Failure(plan.error) && service.documents == old(service.documents) && service.statuses == old(service.statuses))
      && (plan.Success? && plan.value.Single? ==>
            var doc := NewDocument(old(service.nextId), old(service.clock), plan.value.file,
                                   naming(old(service.nextId), plan.value.file.filename),
                                   Metadata(user, patientId), ClinicName(user));
            && r == Success(One(Respond(doc)))
            && service.documents == old(service.documents) + [doc]
            && service.statuses == old(service.statuses) + [IngestionRecord(doc.id), ParsingRecordFor(service.retry, doc.id, network)])
      && (plan.Success? && plan.value.Bulk? ==>
            var created := NewDocuments(plan.value.files, old(service.nextId), old(service.clock), naming,
                                        Metadata(user, patientId), ClinicName(user));
            && r == Success(Many(Responses(created)))
            && service.documents == old(service.documents) + created
            && service.statuses == old(service.statuses) + IngestionRecords(created) + ParsingRecords(service.retry, created, network))
  {
    var validated := ValidateUploadFile(file, detector);
    if validated.Failure? {
      return Failure(ValidationHttpError(validated.error, extensionListing));
    }
    var mimeType := validated.value.mimeType;
    var metadata := Metadata(user, patientId);
    var clinicName := ClinicName(user);
    if IsZipMime(mimeType) {
      var zip := ReadZip(archive);
      if zip.Failure? {
        return Failure(ZipHttpError(zip.error, NO_VALID_DOCUMENTS_DETAIL));
      }
      var responses := StoreBulk(service, zip.value, metadata, clinicName, naming, network);
      r := Success(Many(responses));
    } else {
      var doc := service.UploadDocument(IncomingFile(file.content, file.filename.value, mimeType), naming,
                                        metadata, clinicName, network);
      r := Success(One(Respond(doc)));
    }
  }

  /** The text of the TypeError that the extra keyword argument raises. */
  const IS_ZIP_TYPE_ERROR: string := "validate_upload_file() got an unexpected keyword argument 'is_zip'"

  /** /upload-zip's own first check: a name ending in ".zip", any case. */
  predicate NamedAsZip(file: UploadFile)
  {
    HasName(file.filename) && EndsWith(Lower(file.filename.value), ".zip")
  }

  /**
   * POST /upload-zip as written: after the name check it calls
   * validate_upload_file with a keyword the function does not take, and
   * the TypeError is answered with a 500 before anything is stored.
   */
  function UploadZipBatchAsWritten(file: UploadFile): (r: Result<ZipBatchReply, HttpError>)
    ensures r.Failure?
    ensures r.error.code == 400 <==> !NamedAsZip(file)
  {
    if !NamedAsZip(file) then Failure(HttpError(400, "File must be a ZIP archive"))
    else Failure(HttpError(500, "Zip upload failed: " + IS_ZIP_TYPE_ERROR))
  }

  /** Whatever it holds, even a well-formed archive with one readable PDF, an upload named "reports.zip" is refused with a 500. */
  lemma ZipBatchRefusesGoodArchive(content: seq<byte>)
    ensures UploadZipBatchAsWritten(UploadFile(Some("reports.zip"), Some(|content|), content)).error.code == 500
  {
    assert EndsWith(Lower("reports.zip"), ".zip") by {
      var n := "reports.zip";
      assert Lower(n) == n by {
        forall i | 0 <= i < |n| ensures LowerChar(n[i]) == n[i] { }
      }
      assert n[|n| - 4..] == ".zip";
    }
  }

  /** What the corrected /upload-zip stores, or the error it raises. */
  function ZipBatchPlan(file: UploadFile, detector: Detector, archive: Archive, extensionListing: string)
    : (r: Result<seq<IncomingFile>, HttpError>)
    ensures r.Failure? ==> r.error.code in {400, 413}
    ensures !NamedAsZip(file) ==> r == Failure(HttpError(400, "File must be a ZIP archive"))
    ensures r.Success? ==> NamedAsZip(file) && ValidateUploadFile(file, detector).Success? && |r.value| > 0
    ensures r.Success? ==> forall f :: f in r.value ==> f.contentType == PDF_MIME
  {
    if !NamedAsZip(file) then Failure(HttpError(400, "File must be a ZIP archive"))
    else match ValidateUploadFile(file, detector)
      case Failure(e) => Failure(ValidationHttpError(e, extensionListing))
      case Success(_) =>
        match ZipFiles(archive)
        case Failure(p) => Failure(ZipHttpError(p, NO_VALID_PDFS_DETAIL))
        case Success(files) => Success(files)
  }

  /**
   * POST /upload-zip as evidently intended: the name check, validation
   * (whose size limit already follows the ".zip" name), extraction, then
   * one bulk upload of every extracted file.
   */
  method UploadZipBatch(service: DocumentService, file: UploadFile, detector: Detector, archive: Archive,
                        user: CurrentUser, patientId: Option<string>, naming: (nat, string) -> StoredFile,
                        network: Network, extensionListing: string)
    returns (r: Result<ZipBatchReply, HttpError>)
    requires service.Valid()
    modifies service
    ensures service.Valid()
    ensures var plan := ZipBatchPlan(file, detector, archive, extensionListing);
      && (plan.Failure? ==>
            r == Failure(plan.error) && service.documents == old(service.documents) && service.statuses == old(service.statuses))
      && (plan.Success? ==>
            var created := NewDocuments(plan.value, old(service.nextId), old(service.clock), naming,
                                        Metadata(user, patientId), ClinicName(user));
            && r.Success?
            && r.value.totalDocuments == |plan.value|
            && r.value.documents == UploadedDocuments(created)
            && service.documents == old(service.documents) + created
            && service.statuses == old(service.statuses) + IngestionRecords(created) + ParsingRecords(service.retry, created, network))
  {
    if !NamedAsZip(file) {
      return Failure(HttpError(400, "File must be a ZIP archive"));
    }
    var validated := ValidateUploadFile(file, detector);
    if validated.Failure? {
      return Failure(ValidationHttpError(validated.error, extensionListing));
    }
    var zip := ReadZip(archive);
    if zip.Failure? {
      return Failure(ZipHttpError(zip.error, NO_VALID_PDFS_DETAIL));
    }
    var created, pauses := service.UploadDocumentsBulk(zip.value, naming, Metadata(user, patientId), ClinicName(user), network);
    var uploaded := BuildUploadedDocuments(created);
    r := Success(ZipBatchReply("Successfully uploaded " + NatToString(|created|) + " documents from ZIP file",
                               |created|, uploaded));
  }

  function View(d: Document, rows: seq<ProcessingStatus>): DocumentView
  {
    DocumentView(d.id, d.status, d.originalFilename, d.fileSize, d.contentType, d.createdAt, d.updatedAt, d.clinicName, rows)
  }

  /** GET /{document_id}: 404 for an unknown id, else the document with all of its status rows. */
  function GetDocumentStatus(service: DocumentService, id: DocId): (r: Result<DocumentView, HttpError>)
    reads service`documents, service`statuses
    ensures r.Failure? <==> !(exists i :: 0 <= i < |service.documents| && service.documents[i].id == id)
    ensures r.Failure? ==> r.error == NOT_FOUND
    ensures r.Success? ==> r.value.uploadId == id
    ensures r.Success? ==> forall k :: 0 <= k < |r.value.processingStatuses| ==>
      r.value.processingStatuses[k] in service.statuses && r.value.processingStatuses[k].documentId == id
    ensures r.Success? ==> forall k :: 0 <= k < |service.statuses| && service.statuses[k].documentId == id ==>
      service.statuses[k] in r.value.processingStatuses
    ensures r.Success? ==> forall x ::
      multiset(r.value.processingStatuses)[x] == if x.documentId == id then multiset(service.statuses)[x] else 0
  {
    match service.GetDocument(id)
    case None => Failure(NOT_FOUND)
    case Some(d) => Success(View(d, service.GetProcessingStatuses(id)))
  }

  /** The uploader filter list_documents passes on: the caller's id for a clinic admin, none for any other role. */
  function UploaderFilter(user: CurrentUser): Option<string>
  {
    if user.role == Some("clinic_admin") then Some(user.sub) else None
  }

  /** The rows of a listing page: each document without its status history. */
  function Summaries(docs: seq<Document>): (r: seq<DocumentView>)
    ensures |r| == |docs| && forall k :: 0 <= k < |r| ==> r[k] == View(docs[k], [])
  {
    seq(|docs|, k requires 0 <= k < |docs| => View(docs[k], []))
  }

  /**
   * GET /: 422 unless 1 <= page and 1 <= limit <= 100; otherwise that page
   * of the listing, filtered by status and, for clinic admins, by uploader.
   */
  function ListDocuments(service: DocumentService, page: int, limit: int, status: Option<string>, user: CurrentUser)
    : (r: Result<DocumentList, HttpError>)
    reads service`documents
    ensures r.Failure? <==> page < 1 || limit < 1 || limit > 100
    ensures r.Failure? ==> r.error.code == 422
    ensures r.Success? ==> r.value.page == page && r.value.limit == limit && |r.value.documents| <= limit
    ensures r.Success? ==> r.value.total == |Filter(service.documents, Matches(status, UploaderFilter(user)))|
    ensures r.Success? ==> 1 <= page && r.value.documents == Summaries(service.GetDocuments(page, limit, status, UploaderFilter(user)).0)
  {
    if page < 1 then Failure(HttpError(422, "page"))
    else if limit < 1 || limit > 100 then Failure(HttpError(422, "limit"))
    else
      var (docs, total) := service.GetDocuments(page, limit, status, UploaderFilter(user));
      Success(DocumentList(Summaries(docs), total, page, limit))
  }

  /** A clinic admin with a non-empty id sees only rows it uploaded. */
  lemma ClinicAdminSeesOwnUploads(service: DocumentService, page: int, limit: int, status: Option<string>, user: CurrentUser)
    requires user.role == Some("clinic_admin") && user.sub != ""
    requires 1 <= page && 1 <= limit <= 100
    ensures var r := ListDocuments(service, page, limit, status, user);
      r.Success? && forall k :: 0 <= k < |r.value.documents| ==>
        exists i :: 0 <= i < |service.documents| && service.documents[i].id == r.value.documents[k].uploadId
                    && service.documents[i].uploaderId == user.sub
  {
    var docs := service.GetDocuments(page, limit, status, UploaderFilter(user)).0;
    var r := ListDocuments(service, page, limit, status, user);
    assert forall k :: 0 <= k < |docs| ==> r.value.documents[k].uploadId == docs[k].id;
    service.PageRowsMatch(page, limit, status, UploaderFilter(user));
    forall k | 0 <= k < |docs|
      ensures exists i :: 0 <= i < |service.documents| && service.documents[i].id == docs[k].id
                          && service.documents[i].uploaderId == user.sub
    {
      assert docs[k] in service.documents && Matches(status, UploaderFilter(user))(docs[k]);
      var i :| 0 <= i < |service.documents| && service.documents[i] == docs[k];
    }
  }

  /** Any other role lists every document of the requested status, whoever uploaded it. */
  lemma OtherRolesUnrestricted(service: DocumentService, page: int, limit: int, status: Option<string>, user: CurrentUser)
    requires user.role != Some("clinic_admin")
    requires 1 <= page && 1 <= limit <= 100
    ensures ListDocuments(service, page, limit, status, user).Success?
    ensures ListDocuments(service, page, limit, status, user).value.total == |Filter(service.documents, Matches(status, None))|
    ensures var rows := ListDocuments(service, page, limit, status, user).value.documents;
      var offset := PageOffset(page, limit);
      var listing := service.Listing(status, None);
      |rows| == (if offset >= |listing| then 0 else Min(limit, |listing| - offset)) &&
      forall k :: 0 <= k < |rows| ==> rows[k] == View(listing[offset + k], [])
  {
  }

  /** DELETE /{document_id}: 404 exactly when the service knows no such document. */
  method DeleteDocumentRoute(service: DocumentService, id: DocId) returns (r: Result<string, HttpError>)
    requires service.Valid()
    modifies service`documents, service`statuses
    ensures service.Valid()
    ensures r.Failure? <==> old(service.GetDocument(id)).None?
    ensures r.Failure? ==> r.error == NOT_FOUND
    ensures r.Success? ==> r.value == "Document deleted successfully" && service.GetDocument(id).None?
    ensures r.Failure? ==> service.documents == old(service.documents) && service.statuses == old(service.statuses)
    ensures r.Success? ==> service.documents == Filter(old(service.documents), OtherDocument(id))
    ensures r.Success? ==> service.statuses == Filter(old(service.statuses), RowsNotOf(id))
  {
    var found := service.DeleteDocument(id);
    if !found {
      return Failure(NOT_FOUND);
    }
    DeleteRemoves(old(service.documents), old(service.statuses), id);
    r := Success("Document deleted successfully");
  }

  /** PATCH /{document_id}/status-internal: 404 exactly when the document is unknown; otherwise its status changes. */
  method UpdateDocumentStatusInternal(service: DocumentService, id: DocId, status: string) returns (r: Result<string, HttpError>)
    requires service.Valid()
    modifies service`documents, service`clock
    ensures service.Valid()
    ensures r.Failure? <==> old(service.GetDocument(id)).None?
    ensures service.statuses == old(service.statuses)
    ensures r.Failure? ==> r.error == NOT_FOUND && service.documents == old(service.documents) && service.clock == old(service.clock)
    ensures r.Success? ==> r.value == "Document status updated successfully"
    ensures r.Success? ==> service.documents == WithStatus(old(service.documents), id, status, old(service.clock))
    ensures r.Success? ==> service.clock == old(service.clock) + 1
    ensures r.Success? ==>
      service.GetDocument(id) == Some(old(service.GetDocument(id)).value.(status := status, updatedAt := Some(old(service.clock))))
  {
    ghost var docs, clock := service.documents, service.clock;
    var found := service.UpdateDocumentStatus(id, status);
    if !found {
      return Failure(NOT_FOUND);
    }
    PatchedFound(docs, id, status, clock);
    r := Success("Document status updated successfully");
  }

  /** POST /update-status-internal: one new row with the reported status, whatever the document. */
  method UpdateProcessingStatusInternal(service: DocumentService, id: DocId, serviceName: string, status: string,
                                        errorMessage: Option<string>) returns (message: string)
    modifies service`statuses
    ensures service.statuses == old(service.statuses) + [ProcessingStatus(id, serviceName, status, errorMessage)]
    ensures message == "Status updated successfully"
  {
    var _ := service.AddProcessingStatus(id, serviceName, status, errorMessage);
    message := "Status updated successfully";
  }
}
