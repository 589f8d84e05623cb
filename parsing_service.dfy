/**
 * The parsing stage: turn a stored upload into text while keeping one
 * ParsingResult row per document up to date, then tell the ingestion
 * service how it went and, on success, hand the text to the structuring
 * service.
 */
module Parsing {
  import opened Wrappers
  import opened Common
  import opened Text
  import opened Seqs

  /** A ParsingResult row: extracted text, status, progress percentage and error. */
  datatype ParsingResult = ParsingResult(documentId: DocId, extractedText: string, status: string, progress: int,
                                         errorMessage: Option<string>)

  /** One page as pypdf reads it: its text, or the error extract_text raises. */
  datatype Page = Page(text: string) | BadPage(error: string)

  /** What PdfReader makes of the file: its pages, or the error opening it raises. */
  datatype PdfFile = PdfFile(pages: seq<Page>) | NotPdf(error: string)

  /** The file at the stored path: whether it exists, and what reading it as UTF-8 text or as a PDF gives. */
  datatype DiskFile = DiskFile(path: string, present: bool, asText: Result<string, string>, asPdf: PdfFile)

  /** One call of update_parsing_progress. */
  datatype ProgressWrite = ProgressWrite(documentId: DocId, status: string, progress: int)

  /** A request sent to another service. */
  datatype Message =
      /** POST /documents/update-status-internal on the ingestion service. */
    | StatusPost(documentId: DocId, serviceName: string, status: string, errorMessage: Option<string>)
      /** PATCH /documents/{id}/status-internal on the ingestion service. */
    | StatusPatch(documentId: DocId, status: string)
      /** POST /structuring/structure-internal on the structuring service. */
    | StructureRequest(documentId: DocId, extractedText: string)

  const PARSING_SERVICE: string := "document_parsing"
  const PAGE_SEPARATOR: string := "\n\n"

  function TextOf(p: Page): string
  {
    if p.Page? then p.text else ""
  }

  predicate NonEmpty(s: string)
  {
    s != ""
  }

  /**
   * The page texts _convert_document collects, page by page: the first
   * unreadable page ends it with its error, and empty texts are skipped.
   */
  function Collect(pages: seq<Page>): Result<seq<string>, string>
    decreases |pages|
  {
    if pages == [] then Success([])
    else
      var init := Collect(pages[..|pages| - 1]);
      var last := pages[|pages| - 1];
      if init.Failure? then init
      else if last.BadPage? then Failure(last.error)
      else Success(init.value + (if last.text != "" then [last.text] else []))
  }

  /** Collecting succeeds exactly when every page is readable, and then keeps the non-empty texts in page order. */
  lemma {:induction false} CollectReadable(pages: seq<Page>)
    ensures Collect(pages).Success? <==> forall i :: 0 <= i < |pages| ==> pages[i].Page?
    ensures Collect(pages).Success? ==> Collect(pages).value == Filter(Map(pages, TextOf), NonEmpty)
  {
    if pages != [] {
      var init := pages[..|pages| - 1];
      var last := pages[|pages| - 1];
      CollectReadable(init);
      assert pages == init + [last];
      assert forall i :: 0 <= i < |init| ==> init[i] == pages[i];
      MapAppend(init, [last], TextOf);
      FilterAppend(Map(init, TextOf), [TextOf(last)], NonEmpty);
      FilterOne(TextOf(last), NonEmpty);
    }
  }

  /** The first unreadable page decides the error, whatever follows it. */
  lemma {:induction false} CollectFirstBadPage(pages: seq<Page>, k: nat)
    requires k < |pages| && pages[k].BadPage?
    requires forall j :: 0 <= j < k ==> pages[j].Page?
    ensures Collect(pages) == Failure(pages[k].error)
  {
    var init := pages[..|pages| - 1];
    assert forall j :: 0 <= j < |init| ==> init[j] == pages[j];
    if k == |pages| - 1 {
      CollectReadable(init);
    } else {
      CollectFirstBadPage(init, k);
    }
  }

  /** _convert_document: the non-empty page texts joined by a blank line, or the error pypdf raises. */
  function Converted(pdf: PdfFile): Result<string, string>
  {
    match pdf
    case NotPdf(e) => Failure(e)
    case PdfFile(pages) =>
      match Collect(pages)
      case Failure(e) => Failure(e)
      case Success(parts) => Success(Join(parts, PAGE_SEPARATOR))
  }

  /** A readable PDF converts to its non-empty page texts, in page order, joined by "\n\n". */
  lemma ConvertedReadable(pages: seq<Page>)
    requires forall i :: 0 <= i < |pages| ==> pages[i].Page?
    ensures Converted(PdfFile(pages)) == Success(Join(Filter(Map(pages, TextOf), NonEmpty), PAGE_SEPARATOR))
  {
    CollectReadable(pages);
  }

  /** A converted text is empty exactly when no page had any text. */
  lemma ConvertedEmpty(pages: seq<Page>)
    requires forall i :: 0 <= i < |pages| ==> pages[i].Page?
    ensures Converted(PdfFile(pages)) == Success("") <==> forall i :: 0 <= i < |pages| ==> pages[i].text == ""
  {
    CollectReadable(pages);
    var texts := Map(pages, TextOf);
    var parts := Filter(texts, NonEmpty);
    assert forall i :: 0 <= i < |pages| ==> texts[i] == pages[i].text;
    FilterMembers(texts, NonEmpty);
    JoinEmpty(parts, PAGE_SEPARATOR);
    if forall i :: 0 <= i < |pages| ==> pages[i].text == "" {
      FilterNone(texts, NonEmpty);
    } else {
      var i :| 0 <= i < |pages| && pages[i].text != "";
      assert texts[i] in parts;
    }
  }

  /** The page loop of _convert_document. */
  method ConvertDocument(pdf: PdfFile) returns (r: Result<string, string>)
    ensures r == Converted(pdf)
  {
    if pdf.NotPdf? {
      return Failure(pdf.error);
    }
    var pages := pdf.pages;
    var parts: seq<string> := [];
    for k := 0 to |pages|
      invariant Collect(pages[..k]) == Success(parts)
    {
      assert pages[..k + 1][..k] == pages[..k];
      if pages[k].BadPage? {
        CollectReadable(pages[..k]);
        assert forall j :: 0 <= j < k ==> pages[..k][j] == pages[j];
        CollectFirstBadPage(pages, k);
        return Failure(pages[k].error);
      }
      var text := pages[k].text;
      assert Collect(pages[..k + 1]) == Success(parts + (if text != "" then [text] else [])) by {
        assert pages[..k + 1][k] == pages[k];
      }
      if text != "" {
        parts := parts + [text];
      } else {
        assert parts + [] == parts;
      }
    }
    assert pages[..|pages|] == pages;
    r := Success(Join(parts, PAGE_SEPARATOR));
  }

  /** os.path.splitext(path)[1].lower() */
  function FileExtension(path: string): string
  {
    Lower(SplitExtension(path))
  }

  /** Which branch of parse_document a file takes. */
  datatype FileKind = Missing | TextFile | PdfDocument | Unsupported(extension: string)

  function KindOf(file: DiskFile): FileKind
  {
    if !file.present then Missing
    else if FileExtension(file.path) == ".txt" then TextFile
    else if FileExtension(file.path) == ".pdf" then PdfDocument
    else Unsupported(FileExtension(file.path))
  }

  /** The text parse_document extracts, or the message of the exception it meets first. */
  function Extract(file: DiskFile): Result<string, string>
  {
    match KindOf(file)
    case Missing => Failure("File not found: " + file.path)
    case TextFile => file.asText
    case PdfDocument => Converted(file.asPdf)
    case Unsupported(ext) => Failure("Unsupported file type for lightweight parsing: " + ext)
  }

  /** The progress values written up to the end of extraction, or up to the point it fails. */
  function ExtractionTrace(file: DiskFile): seq<int>
  {
    match KindOf(file)
    case Missing => []
    case TextFile => if file.asText.Success? then [5, 50, 90] else [5, 50]
    case PdfDocument => if Converted(file.asPdf).Success? then [5, 15, 30, 85] else [5, 15, 30]
    case Unsupported(_) => [5]
  }

  /** How a run ends: None when it completes, else the message it re-raises. */
  function RunError(extraction: Result<string, string>, saveError: Option<string>): Option<string>
  {
    match extraction
    case Failure(e) => Some(e)
    case Success(_) => saveError
  }

  /** The progress values written after extraction: 92 and 95 once there is a text to save. */
  function SavingTrace(extraction: Result<string, string>): seq<int>
  {
    if extraction.Success? then [92, 95] else []
  }

  /** Every progress value a run writes, in order. */
  function RunTrace(file: DiskFile): seq<int>
  {
    ExtractionTrace(file) + SavingTrace(Extract(file))
  }

  /** The row a run leaves for its document. */
  function FinalRecord(id: DocId, extraction: Result<string, string>, saveError: Option<string>): ParsingResult
  {
    match RunError(extraction, saveError)
    case None => ParsingResult(id, extraction.value, "completed", 100, None)
    case Some(e) => ParsingResult(id, "", "failed", 0, Some(e))
  }

  /** What parse_document returns, or the message it re-raises. */
  function RunResult(id: DocId, extraction: Result<string, string>, saveError: Option<string>): Result<ParsingResult, string>
  {
    match RunError(extraction, saveError)
    case None => Success(FinalRecord(id, extraction, saveError))
    case Some(e) => Failure(e)
  }

  /**
   * What update_document_status sends: the fine status always; the coarse
   * one only when it is non-empty and the POST did not raise, since both
   * requests share one try.
   */
  function StatusMessages(id: DocId, docStatus: string, processingStatus: string, errorMessage: Option<string>, postRaised: bool)
    : seq<Message>
  {
    [StatusPost(id, PARSING_SERVICE, processingStatus, errorMessage)]
      + (if docStatus != "" && !postRaised then [StatusPatch(id, docStatus)] else [])
  }

  /** The requests a run sends, in order. */
  function RunMessages(id: DocId, extraction: Result<string, string>, saveError: Option<string>, postRaised: bool): seq<Message>
  {
    match RunError(extraction, saveError)
    case None => StatusMessages(id, "parsed", "completed", None, postRaised) + [StructureRequest(id, extraction.value)]
    case Some(e) => StatusMessages(id, "uploaded", "failed", Some(e), postRaised)
  }

  function Writes(id: DocId, trace: seq<int>): seq<ProgressWrite>
  {
    seq(|trace|, i requires 0 <= i < |trace| => ProgressWrite(id, "processing", trace[i]))
  }

  lemma WritesAppend(id: DocId, t: seq<int>, u: seq<int>)
    ensures Writes(id, t + u) == Writes(id, t) + Writes(id, u)
  {
  }

  /** A missing file is refused before anything else: no progress is written. */
  lemma MissingFileFailsFirst(id: DocId, file: DiskFile, saveError: Option<string>)
    requires !file.present
    ensures RunError(Extract(file), saveError) == Some("File not found: " + file.path)
    ensures RunTrace(file) == []
    ensures FinalRecord(id, Extract(file), saveError) == ParsingResult(id, "", "failed", 0, Some("File not found: " + file.path))
  {
  }

  /** Only ".txt" and ".pdf" files, in any case, can be parsed; any other extension fails after the first progress write. */
  lemma OnlyTextAndPdf(file: DiskFile)
    requires file.present
    ensures Extract(file).Success? ==> FileExtension(file.path) == ".txt" || FileExtension(file.path) == ".pdf"
    ensures FileExtension(file.path) != ".txt" && FileExtension(file.path) != ".pdf" ==>
      Extract(file) == Failure("Unsupported file type for lightweight parsing: " + FileExtension(file.path))
      && RunTrace(file) == [5]
  {
  }

  /**
   * On a completed run the progress values, ending with the row's 100,
   * are one of the two fixed traces, so they strictly increase.
   */
  lemma SuccessTrace(id: DocId, file: DiskFile, saveError: Option<string>)
    requires RunError(Extract(file), saveError).None?
    ensures var t := RunTrace(file) + [FinalRecord(id, Extract(file), saveError).progress];
      && (t == [5, 50, 90, 92, 95, 100] || t == [5, 15, 30, 85, 92, 95, 100])
      && Increasing(t, (x: int) => x)
      && t[|t| - 1] == 100
  {
    var t := RunTrace(file) + [FinalRecord(id, Extract(file), saveError).progress];
    ExtractionTraceOnSuccess(file);
    if ExtractionTrace(file) == [5, 50, 90] {
      assert t == [5, 50, 90, 92, 95, 100];
    } else {
      assert t == [5, 15, 30, 85, 92, 95, 100];
    }
  }

  /** A successful extraction writes one of the two fixed progress runs. */
  lemma ExtractionTraceOnSuccess(file: DiskFile)
    requires Extract(file).Success?
    ensures ExtractionTrace(file) == [5, 50, 90] || ExtractionTrace(file) == [5, 15, 30, 85]
  {
  }

  /**
   * The row a run leaves is "completed" with progress 100, no error and the
   * extracted text exactly when extraction and saving both succeed, and
   * otherwise "failed" with progress 0, no text and the error message.
   */
  lemma FinalRecordOutcome(id: DocId, extraction: Result<string, string>, saveError: Option<string>)
    ensures var rec := FinalRecord(id, extraction, saveError);
      && rec.documentId == id
      && (rec.status == "completed" <==> extraction.Success? && saveError.None?)
      && (rec.status == "completed" ==> rec.progress == 100 && rec.errorMessage.None? && rec.extractedText == extraction.value)
      && (rec.status != "completed" ==>
            rec.status == "failed" && rec.progress == 0 && rec.extractedText == "" && rec.errorMessage == RunError(extraction, saveError))
  {
  }

  /**
   * A completed run reports fine "completed" and coarse "parsed", then
   * triggers structuring once with the text; a failed one reports fine
   * "failed" with the error and coarse "uploaded", and triggers nothing.
   * A POST that raises drops the coarse patch and nothing else.
   */
  lemma RunNotifications(id: DocId, extraction: Result<string, string>, saveError: Option<string>, postRaised: bool)
    ensures RunError(extraction, saveError).None? && !postRaised ==>
      RunMessages(id, extraction, saveError, postRaised) ==
        [StatusPost(id, PARSING_SERVICE, "completed", None), StatusPatch(id, "parsed"), StructureRequest(id, extraction.value)]
    ensures RunError(extraction, saveError).None? && postRaised ==>
      RunMessages(id, extraction, saveError, postRaised) ==
        [StatusPost(id, PARSING_SERVICE, "completed", None), StructureRequest(id, extraction.value)]
    ensures RunError(extraction, saveError).Some? && !postRaised ==>
      RunMessages(id, extraction, saveError, postRaised) ==
        [StatusPost(id, PARSING_SERVICE, "failed", RunError(extraction, saveError)), StatusPatch(id, "uploaded")]
    ensures RunError(extraction, saveError).Some? && postRaised ==>
      RunMessages(id, extraction, saveError, postRaised) ==
        [StatusPost(id, PARSING_SERVICE, "failed", RunError(extraction, saveError))]
    ensures forall k :: 0 <= k < |RunMessages(id, extraction, saveError, postRaised)|
                        && RunMessages(id, extraction, saveError, postRaised)[k].StructureRequest? ==>
      RunError(extraction, saveError).None? && k == |RunMessages(id, extraction, saveError, postRaised)| - 1
  {
  }

  /**
   * The row update_parsing_progress leaves: an existing row keeps its text
   * and error and takes the new status and progress; otherwise a new row
   * with empty text.
   */
  function Progressed(rows: map<DocId, ParsingResult>, id: DocId, status: string, progress: int): ParsingResult
  {
    if id in rows then rows[id].(status := status, progress := progress)
    else ParsingResult(id, "", status, progress, None)
  }

  /** A progress write changes only status and progress, and creates a row with empty text when there was none. */
  lemma ProgressKeepsContent(rows: map<DocId, ParsingResult>, id: DocId, status: string, progress: int)
    requires id in rows ==> rows[id].documentId == id
    ensures var rec := Progressed(rows, id, status, progress);
      && rec.documentId == id && rec.status == status && rec.progress == progress
      && (id in rows ==> rec.extractedText == rows[id].extractedText && rec.errorMessage == rows[id].errorMessage)
      && (id !in rows ==> rec.extractedText == "" && rec.errorMessage.None?)
  {
  }

  /** Two tables that agree away from one key agree once that key is set. */
  lemma SameOutsideKey(a: map<DocId, ParsingResult>, b: map<DocId, ParsingResult>, id: DocId, row: ParsingResult)
    requires b - {id} == a - {id}
    ensures b[id := row] == a[id := row]
  {
    assert forall k :: k in a - {id} <==> k in a && k != id;
    assert forall k :: k in b - {id} <==> k in b && k != id;
  }

  /** The parsing service with its ParsingResult table and the requests it has sent. */
  class ParsingService {
    /** The ParsingResult table, one row per document. */
    var results: map<DocId, ParsingResult>
    /** Every update_parsing_progress call, in order. */
    var progressLog: seq<ProgressWrite>
    /** Every request sent to the ingestion and structuring services, in order. */
    var outbox: seq<Message>

    /** Each row is filed under its own document. */
    ghost predicate Valid()
      reads this
    {
      forall id :: id in results ==> results[id].documentId == id
    }

    constructor ()
      ensures Valid()
      ensures results == map[] && progressLog == [] && outbox == []
    {
      results := map[];
      progressLog := [];
      outbox := [];
    }

    /** update_parsing_progress: upsert the row's status and progress; it never fails. */
    method UpdateParsingProgress(id: DocId, status: string, progress: int)
      requires Valid()
      modifies this`results, this`progressLog
      ensures Valid()
      ensures results == old(results)[id := Progressed(old(results), id, status, progress)]
      ensures results - {id} == old(results) - {id}
      ensures progressLog == old(progressLog) + [ProgressWrite(id, status, progress)]
    {
      var row := if id in results then results[id].(status := status, progress := progress)
                 else ParsingResult(id, "", status, progress, None);
      results := results[id := row];
      progressLog := progressLog + [ProgressWrite(id, status, progress)];
    }

    /**
     * update_document_status: post the fine status, then patch the coarse
     * one when it is non-empty. `postRaised` is whether the POST raised,
     * which skips the rest of the try; the exception is only logged.
     */
    method UpdateDocumentStatus(id: DocId, docStatus: string, processingStatus: string, errorMessage: Option<string>,
                                postRaised: bool)
      modifies this`outbox
      ensures outbox == old(outbox) + StatusMessages(id, docStatus, processingStatus, errorMessage, postRaised)
    {
      outbox := outbox + [StatusPost(id, PARSING_SERVICE, processingStatus, errorMessage)];
      if postRaised {
        return;
      }
      if docStatus != "" {
        outbox := outbox + [StatusPatch(id, docStatus)];
      }
    }

    /** trigger_structuring_service: one request, no retry; its failure is only logged, so nothing else depends on it. */
    method TriggerStructuring(id: DocId, text: string)
      modifies this`outbox
      ensures outbox == old(outbox) + [StructureRequest(id, text)]
    {
      outbox := outbox + [StructureRequest(id, text)];
    }

    /** The extraction part of parse_document, with its progress writes; nothing but the document's row changes. */
    method ExtractText(id: DocId, file: DiskFile) returns (r: Result<string, string>)
      requires Valid()
      modifies this`results, this`progressLog
      ensures Valid()
      ensures r == Extract(file)
      ensures progressLog == old(progressLog) + Writes(id, ExtractionTrace(file))
      ensures results - {id} == old(results) - {id}
    {
      if !file.present {
        return Failure("File not found: " + file.path);
      }
      ghost var log0 := progressLog;
      assert log0 + Writes(id, []) == log0;
      Advance(id, 5, log0, []);
      var ext := FileExtension(file.path);
      if ext == ".txt" {
        r := ReadTextFile(id, file.asText, log0);
      } else if ext == ".pdf" {
        r := ReadPdfFile(id, file.asPdf, log0);
      } else {
        return Failure("Unsupported file type for lightweight parsing: " + ext);
      }
    }

    /** The ".txt" branch: progress 50, the UTF-8 read, progress 90. */
    method ReadTextFile(id: DocId, read: Result<string, string>, ghost log0: seq<ProgressWrite>) returns (r: Result<string, string>)
      requires Valid() && progressLog == log0 + Writes(id, [5])
      modifies this`results, this`progressLog
      ensures Valid()
      ensures r == read
      ensures progressLog == log0 + Writes(id, if read.Success? then [5, 50, 90] else [5, 50])
      ensures results - {id} == old(results) - {id}
    {
      Advance(id, 50, log0, [5]);
      if read.Failure? {
        return read;
      }
      Advance(id, 90, log0, [5, 50]);
      r := read;
    }

    /** The ".pdf" branch: progress 15 and 30, the conversion, progress 85. */
    method ReadPdfFile(id: DocId, pdf: PdfFile, ghost log0: seq<ProgressWrite>) returns (r: Result<string, string>)
      requires Valid() && progressLog == log0 + Writes(id, [5])
      modifies this`results, this`progressLog
      ensures Valid()
      ensures r == Converted(pdf)
      ensures progressLog == log0 + Writes(id, if r.Success? then [5, 15, 30, 85] else [5, 15, 30])
      ensures results - {id} == old(results) - {id}
    {
      Advance(id, 15, log0, [5]);
      Advance(id, 30, log0, [5, 15]);
      r := ConvertDocument(pdf);
      if r.Failure? {
        return;
      }
      Advance(id, 85, log0, [5, 15, 30]);
    }

    /** One "processing" progress write of the extraction, counted against the values written so far. */
    method Advance(id: DocId, progress: int, ghost log0: seq<ProgressWrite>, ghost trace: seq<int>)
      requires Valid() && progressLog == log0 + Writes(id, trace)
      modifies this`results, this`progressLog
      ensures Valid()
      ensures progressLog == log0 + Writes(id, trace + [progress])
      ensures results - {id} == old(results) - {id}
    {
      UpdateParsingProgress(id, "processing", progress);
      WritesAppend(id, trace, [progress]);
      AppendAssoc(log0, Writes(id, trace), Writes(id, [progress]));
    }

    /**
     * parse_document. The save error is the exception writing the text
     * file raises, if any, and `postRaised` whether the status POST to
     * ingestion raises. Updating an existing row and inserting a new one
     * store the same values, so both are one map update here.
     */
    method ParseDocument(id: DocId, file: DiskFile, saveError: Option<string>, postRaised: bool) returns (r: Result<ParsingResult, string>)
      requires Valid()
      modifies this
      ensures Valid()
      ensures results == old(results)[id := FinalRecord(id, Extract(file), saveError)]
      ensures progressLog == old(progressLog) + Writes(id, RunTrace(file))
      ensures outbox == old(outbox) + RunMessages(id, Extract(file), saveError, postRaised)
      ensures r == RunResult(id, Extract(file), saveError)
    {
      var extracted := ExtractText(id, file);
      ghost var extractedRows := results;
      r := Conclude(id, extracted, saveError, postRaised);
      SameOutsideKey(old(results), extractedRows, id, FinalRecord(id, extracted, saveError));
      WritesAppend(id, ExtractionTrace(file), SavingTrace(extracted));
      AppendAssoc(old(progressLog), Writes(id, ExtractionTrace(file)), Writes(id, SavingTrace(extracted)));
    }

    /** The rest of parse_document once extraction has produced a text or an error. */
    method Conclude(id: DocId, extraction: Result<string, string>, saveError: Option<string>, postRaised: bool)
      returns (r: Result<ParsingResult, string>)
      requires Valid()
      modifies this
      ensures Valid()
      ensures results == old(results)[id := FinalRecord(id, extraction, saveError)]
      ensures progressLog == old(progressLog) + Writes(id, SavingTrace(extraction))
      ensures outbox == old(outbox) + RunMessages(id, extraction, saveError, postRaised)
      ensures r == RunResult(id, extraction, saveError)
    {
      if extraction.Failure? {
        RecordFailure(id, extraction.error, postRaised);
        assert old(progressLog) + [] == old(progressLog);
        return Failure(extraction.error);
      }
      r := SaveText(id, extraction.value, saveError, postRaised);
      AppendAssoc(old(progressLog), [ProgressWrite(id, "processing", 92)], [ProgressWrite(id, "processing", 95)]);
    }

    /** The saving steps of parse_document: two progress writes, the completed row, then the notifications. */
    method SaveText(id: DocId, text: string, saveError: Option<string>, postRaised: bool) returns (r: Result<ParsingResult, string>)
      requires Valid()
      modifies this
      ensures Valid()
      ensures results == old(results)[id := FinalRecord(id, Success(text), saveError)]
      ensures progressLog == old(progressLog) + [ProgressWrite(id, "processing", 92)] + [ProgressWrite(id, "processing", 95)]
      ensures outbox == old(outbox) + RunMessages(id, Success(text), saveError, postRaised)
      ensures r == RunResult(id, Success(text), saveError)
    {
      UpdateParsingProgress(id, "processing", 92);
      UpdateParsingProgress(id, "processing", 95);
      var row := ParsingResult(id, text, "completed", 100, None);
      results := results[id := row];
      if saveError.Some? {
        RecordFailure(id, saveError.value, postRaised);
        return Failure(saveError.value);
      }
      UpdateDocumentStatus(id, "parsed", "completed", None, postRaised);
      TriggerStructuring(id, text);
      AppendAssoc(old(outbox), StatusMessages(id, "parsed", "completed", None, postRaised), [StructureRequest(id, text)]);
      r := Success(row);
    }

    /** The except branch of parse_document: the row becomes a failure and ingestion is told. */
    method RecordFailure(id: DocId, error: string, postRaised: bool)
      requires Valid()
      modifies this`results, this`outbox
      ensures Valid()
      ensures results == old(results)[id := ParsingResult(id, "", "failed", 0, Some(error))]
      ensures outbox == old(outbox) + StatusMessages(id, "uploaded", "failed", Some(error), postRaised)
    {
      results := results[id := ParsingResult(id, "", "failed", 0, Some(error))];
      UpdateDocumentStatus(id, "uploaded", "failed", Some(error), postRaised);
    }
  }
}
