/**
 * The ingestion service's record store: the documents table, the
 * append-only processing-status table, uploads (single and bulk), status
 * patches, cascade delete, the paginated newest-first listing, and the
 * retrying dispatch to the parsing service.
 *
 * Timestamps come from a logical clock that ticks once per timestamped
 * write, so creation times strictly increase in insertion order; database
 * ids come from a counter.
 */
module Ingestion {
  import opened Wrappers
  import opened Common
  import opened Seqs
  import opened Retry
  import opened Batching
  import opened IngestionConfig
  import Text

  datatype Document = Document(
    id: DocId,
    filename: string,
    originalFilename: string,
    filePath: string,
    fileSize: nat,
    contentType: string,
    uploaderId: string,
    clinicName: Option<string>,
    patientId: Option<string>,
    status: string,
    createdAt: nat,
    updatedAt: Option<nat>)

  datatype ProcessingStatus = ProcessingStatus(documentId: DocId, serviceName: string, status: string, errorMessage: Option<string>)

  datatype UploadMetadata = UploadMetadata(uploaderId: string, patientId: Option<string>)

  /** One file to store: its bytes, its original name and its content type. */
  datatype IncomingFile = IncomingFile(content: seq<byte>, filename: string, contentType: string)

  /** What generate_file_path returns: the storage path and the unique stored name. */
  datatype StoredFile = StoredFile(path: string, uniqueName: string)

  /** The outcome of each POST for each document, by document id and attempt number. */
  type Network = (DocId, nat) -> AttemptOutcome

  function Attempts(network: Network, id: DocId): nat -> AttemptOutcome
  {
    (a: nat) => network(id, a)
  }

  const UPLOADED: string := "uploaded"
  const INGESTION_SERVICE: string := "document_ingestion"
  const PARSING_SERVICE: string := "document_parsing"

  /** The row created for an upload; id and creation time are assigned by the store. */
  function NewDocument(id: DocId, at: nat, f: IncomingFile, stored: StoredFile,
                       metadata: UploadMetadata, clinicName: Option<string>): (d: Document)
    ensures d.id == id && d.createdAt == at && d.updatedAt == None
    ensures d.status == UPLOADED && d.fileSize == |f.content|
    ensures d.originalFilename == f.filename && d.filename == stored.uniqueName && d.filePath == stored.path
    ensures d.uploaderId == metadata.uploaderId && d.patientId == metadata.patientId && d.clinicName == clinicName
  {
    Document(id, stored.uniqueName, f.filename, stored.path, |f.content|, f.contentType,
             metadata.uploaderId, clinicName, metadata.patientId, UPLOADED, at, None)
  }

  /** The rows of a bulk upload: consecutive ids and creation times, one per file. */
  function NewDocuments(files: seq<IncomingFile>, firstId: DocId, firstAt: nat, naming: (nat, string) -> StoredFile,
                        metadata: UploadMetadata, clinicName: Option<string>): (r: seq<Document>)
    ensures |r| == |files|
    ensures forall k :: 0 <= k < |r| ==> r[k].id == firstId + k && r[k].createdAt == firstAt + k && r[k].status == UPLOADED
  {
    seq(|files|, k requires 0 <= k < |files| =>
      NewDocument(firstId + k, firstAt + k, files[k], naming(firstId + k, files[k].filename), metadata, clinicName))
  }

  /** The ingestion stage's own record: it completes as soon as the file is stored. */
  function IngestionRecord(id: DocId): ProcessingStatus
  {
    ProcessingStatus(id, INGESTION_SERVICE, "completed", None)
  }

  /** The one record the dispatch appends: "processing" when parsing accepted the job, else "failed" with the detail. */
  function ParsingRecord(id: DocId, outcome: DispatchOutcome): (r: ProcessingStatus)
    ensures r.documentId == id && r.serviceName == PARSING_SERVICE
    ensures r.status == "processing" <==> outcome == Accepted
    ensures r.status == "failed" <==> outcome.Failed?
    ensures r.errorMessage == if outcome.Failed? then Some(outcome.detail) else None
  {
    match outcome
    case Accepted => ProcessingStatus(id, PARSING_SERVICE, "processing", None)
    case Failed(detail) => ProcessingStatus(id, PARSING_SERVICE, "failed", Some(detail))
  }

  function IngestionRecords(docs: seq<Document>): (r: seq<ProcessingStatus>)
    ensures |r| == |docs| && forall k :: 0 <= k < |docs| ==> r[k] == IngestionRecord(docs[k].id)
  {
    seq(|docs|, k requires 0 <= k < |docs| => IngestionRecord(docs[k].id))
  }

  /** The record the dispatch for document `id` appends under the retry settings `cfg`. */
  function ParsingRecordFor(cfg: RetryConfig, id: DocId, network: Network): ProcessingStatus
  {
    ParsingRecord(id, Dispatch(cfg, Attempts(network, id)).outcome)
  }

  function ParsingRecords(cfg: RetryConfig, docs: seq<Document>, network: Network): (r: seq<ProcessingStatus>)
    ensures |r| == |docs| && forall k :: 0 <= k < |docs| ==> r[k] == ParsingRecordFor(cfg, docs[k].id, network)
  {
    seq(|docs|, k requires 0 <= k < |docs| => ParsingRecordFor(cfg, docs[k].id, network))
  }

  function CreatedAt(d: Document): int
  {
    d.createdAt
  }

  function IdOf(d: Document): int
  {
    d.id
  }

  /** The new rows of the first k files are those of the first k - 1 and one more. */
  lemma NewDocumentsSnoc(files: seq<IncomingFile>, k: nat, firstId: DocId, firstAt: nat, naming: (nat, string) -> StoredFile,
                         metadata: UploadMetadata, clinicName: Option<string>)
    requires k < |files|
    ensures NewDocuments(files[..k + 1], firstId, firstAt, naming, metadata, clinicName)
      == NewDocuments(files[..k], firstId, firstAt, naming, metadata, clinicName)
         + [NewDocument(firstId + k, firstAt + k, files[k], naming(firstId + k, files[k].filename), metadata, clinicName)]
  {
  }

  lemma IngestionRecordsAppend(a: seq<Document>, b: seq<Document>)
    ensures IngestionRecords(a + b) == IngestionRecords(a) + IngestionRecords(b)
  {
    var l, r := IngestionRecords(a), IngestionRecords(b);
    assert forall k :: 0 <= k < |a| + |b| ==> IngestionRecord((a + b)[k].id) == (l + r)[k];
  }

  lemma ParsingRecordsAppend(cfg: RetryConfig, a: seq<Document>, b: seq<Document>, network: Network)
    ensures ParsingRecords(cfg, a + b, network) == ParsingRecords(cfg, a, network) + ParsingRecords(cfg, b, network)
  {
    var l, r := ParsingRecords(cfg, a, network), ParsingRecords(cfg, b, network);
    assert forall k :: 0 <= k < |a| + |b| ==> ParsingRecordFor(cfg, (a + b)[k].id, network) == (l + r)[k];
  }

  /** The parsing records of a longer prefix extend those of a shorter one by the rows in between. */
  lemma PrefixRecords(cfg: RetryConfig, docs: seq<Document>, network: Network, i: nat, j: nat)
    requires i <= j <= |docs|
    ensures ParsingRecords(cfg, docs[..j], network) == ParsingRecords(cfg, docs[..i], network) + ParsingRecords(cfg, docs[i..j], network)
  {
    assert docs[..j] == docs[..i] + docs[i..j];
    ParsingRecordsAppend(cfg, docs[..i], docs[i..j], network);
  }

  /** Ids and creation times strictly increase along the table and lie below the counters; updates come after creation. */
  ghost predicate Chronological(docs: seq<Document>, nextId: nat, clock: nat)
  {
    && Increasing(docs, IdOf)
    && Increasing(docs, CreatedAt)
    && (forall i :: 0 <= i < |docs| ==> docs[i].id < nextId && docs[i].createdAt < clock)
    && (forall i :: 0 <= i < |docs| && docs[i].updatedAt.Some? ==>
          docs[i].createdAt < docs[i].updatedAt.value < clock)
  }

  /** The row with this id, if any. */
  function FindById(docs: seq<Document>, id: DocId): (r: Option<Document>)
    ensures r.Some? <==> exists i :: 0 <= i < |docs| && docs[i].id == id
    ensures r.Some? ==> r.value in docs && r.value.id == id
  {
    if docs == [] then None
    else if docs[0].id == id then Some(docs[0])
    else
      var r := FindById(docs[1..], id);
      assert forall i :: 1 <= i < |docs| ==> docs[i] == docs[1..][i - 1];
      r
  }

  /** The row whose id is unique in the table is the one FindById returns. */
  lemma {:induction false} FindUnique(docs: seq<Document>, i: nat)
    requires i < |docs|
    requires Increasing(docs, IdOf)
    ensures FindById(docs, docs[i].id) == Some(docs[i])
  {
    if i > 0 {
      assert docs[0].id < docs[i].id;
      assert docs[1..][i - 1] == docs[i];
      FindUnique(docs[1..], i - 1);
    }
  }

  /** the status filter and the uploader filter, each applied only when given and non-empty */
  predicate Given(o: Option<string>)
  {
    o.Some? && o.value != ""
  }

  function Matches(status: Option<string>, uploaderId: Option<string>): Document -> bool
  {
    (d: Document) => (Given(status) ==> d.status == status.value) && (Given(uploaderId) ==> d.uploaderId == uploaderId.value)
  }

  function OtherDocument(id: DocId): Document -> bool
  {
    (d: Document) => d.id != id
  }

  function RowsOf(id: DocId): ProcessingStatus -> bool
  {
    (s: ProcessingStatus) => s.documentId == id
  }

  function RowsNotOf(id: DocId): ProcessingStatus -> bool
  {
    (s: ProcessingStatus) => s.documentId != id
  }

  /** The table after a status patch of document `id` at time `at`. */
  function WithStatus(docs: seq<Document>, id: DocId, status: string, at: nat): seq<Document>
  {
    seq(|docs|, i requires 0 <= i < |docs| =>
      if docs[i].id == id then docs[i].(status := status, updatedAt := Some(at)) else docs[i])
  }

  /** A status patch changes the patched document's status and update time and nothing else about it. */
  lemma PatchedDocument(docs: seq<Document>, id: DocId, status: string, at: nat, i: nat)
    requires Increasing(docs, IdOf)
    requires i < |docs| && docs[i].id == id
    ensures FindById(WithStatus(docs, id, status, at), id) == Some(docs[i].(status := status, updatedAt := Some(at)))
  {
    var w := WithStatus(docs, id, status, at);
    assert forall a :: 0 <= a < |docs| ==> w[a].id == docs[a].id;
    FindUnique(w, i);
  }
  /** Patching a document that exists: looking its id up afterwards finds the patched row. */
  lemma PatchedFound(docs: seq<Document>, id: DocId, status: string, at: nat)
    requires Increasing(docs, IdOf)
    requires FindById(docs, id).Some?
    ensures FindById(WithStatus(docs, id, status, at), id) == Some(FindById(docs, id).value.(status := status, updatedAt := Some(at)))
  {
    var i :| 0 <= i < |docs| && docs[i].id == id;
    FindUnique(docs, i);
    PatchedDocument(docs, id, status, at, i);
  }


  /** A status patch stamped with the current clock keeps the table chronological once the clock ticks. */
  lemma WithStatusChronological(docs: seq<Document>, id: DocId, status: string, nextId: nat, clock: nat)
    requires Chronological(docs, nextId, clock)
    ensures Chronological(WithStatus(docs, id, status, clock), nextId, clock + 1)
  {
    var w := WithStatus(docs, id, status, clock);
    assert forall a :: 0 <= a < |docs| ==> w[a].id == docs[a].id && w[a].createdAt == docs[a].createdAt;
    assert Increasing(w, IdOf) && Increasing(w, CreatedAt);
  }

  /** A status patch leaves every other document as it was. */
  lemma PatchLeavesOthers(docs: seq<Document>, id: DocId, status: string, at: nat, i: nat)
    requires Increasing(docs, IdOf)
    requires i < |docs| && docs[i].id != id
    ensures FindById(WithStatus(docs, id, status, at), docs[i].id) == Some(docs[i])
  {
    var w := WithStatus(docs, id, status, at);
    assert forall a :: 0 <= a < |docs| ==> w[a].id == docs[a].id;
    FindUnique(w, i);
  }

  /** After the cascade delete the document is gone and has no status rows. */
  lemma DeleteRemoves(docs: seq<Document>, rows: seq<ProcessingStatus>, id: DocId)
    ensures FindById(Filter(docs, OtherDocument(id)), id) == None
    ensures Filter(Filter(rows, RowsNotOf(id)), RowsOf(id)) == []
  {
    FilterMembers(docs, OtherDocument(id));
    FilterMembers(rows, RowsNotOf(id));
    FilterNone(Filter(rows, RowsNotOf(id)), RowsOf(id));
  }

  /** The cascade delete keeps every other document, and every other document's rows in order. */
  lemma DeleteKeepsOthers(docs: seq<Document>, rows: seq<ProcessingStatus>, id: DocId, i: nat)
    requires Increasing(docs, IdOf)
    requires i < |docs| && docs[i].id != id
    ensures FindById(Filter(docs, OtherDocument(id)), docs[i].id) == Some(docs[i])
    ensures Filter(Filter(rows, RowsNotOf(id)), RowsOf(docs[i].id)) == Filter(rows, RowsOf(docs[i].id))
  {
    FilterSubsumed(rows, RowsNotOf(id), RowsOf(docs[i].id));
    var g := Filter(docs, OtherDocument(id));
    FilterKeepsIncreasing(docs, OtherDocument(id), IdOf);
    FilterMembers(docs, OtherDocument(id));
    assert docs[i] in g;
    var k :| 0 <= k < |g| && g[k] == docs[i];
    FindUnique(g, k);
  }

  /** The documents that pass the listing filters, newest first. */
  function NewestFirst(docs: seq<Document>, status: Option<string>, uploaderId: Option<string>): seq<Document>
  {
    Reverse(Filter(docs, Matches(status, uploaderId)))
  }

  /** The newest-first listing holds exactly the documents that pass the filters. */
  lemma NewestFirstMembers(docs: seq<Document>, status: Option<string>, uploaderId: Option<string>)
    ensures forall k :: 0 <= k < |NewestFirst(docs, status, uploaderId)| ==>
      NewestFirst(docs, status, uploaderId)[k] in docs && Matches(status, uploaderId)(NewestFirst(docs, status, uploaderId)[k])
    ensures forall i :: 0 <= i < |docs| && Matches(status, uploaderId)(docs[i]) ==> docs[i] in NewestFirst(docs, status, uploaderId)
  {
    var f := Filter(docs, Matches(status, uploaderId));
    var r := Reverse(f);
    FilterMembers(docs, Matches(status, uploaderId));
    ReverseMembers(f);
    forall k | 0 <= k < |r| ensures r[k] in docs && Matches(status, uploaderId)(r[k]) {
      var q :| 0 <= q < |f| && f[q] == r[k];
    }
  }

  /** When creation times increase along the table, the listing's creation times strictly decrease. */
  lemma NewestFirstOrdered(docs: seq<Document>, status: Option<string>, uploaderId: Option<string>)
    requires Increasing(docs, CreatedAt)
    ensures Decreasing(NewestFirst(docs, status, uploaderId), CreatedAt)
  {
    var f := Filter(docs, Matches(status, uploaderId));
    FilterKeepsIncreasing(docs, Matches(status, uploaderId), CreatedAt);
    ReverseDecreasing(f, CreatedAt);
  }

  /** Removing documents keeps the table chronological. */
  lemma FilterChronological(docs: seq<Document>, p: Document -> bool, nextId: nat, clock: nat)
    requires Chronological(docs, nextId, clock)
    ensures Chronological(Filter(docs, p), nextId, clock)
  {
    var f := Filter(docs, p);
    FilterKeepsIncreasing(docs, p, IdOf);
    FilterKeepsIncreasing(docs, p, CreatedAt);
    FilterMembers(docs, p);
    forall k | 0 <= k < |f| ensures f[k].id < nextId && f[k].createdAt < clock {
      var i :| 0 <= i < |docs| && docs[i] == f[k];
    }
    forall k | 0 <= k < |f| && f[k].updatedAt.Some? ensures f[k].createdAt < f[k].updatedAt.value < clock {
      var i :| 0 <= i < |docs| && docs[i] == f[k];
    }
  }

  /** A row with the next id and the current time, not yet updated, extends a chronological table once both counters tick. */
  lemma AppendNewChronological(docs: seq<Document>, d: Document, nextId: nat, clock: nat)
    requires Chronological(docs, nextId, clock)
    requires d.id == nextId && d.createdAt == clock && d.updatedAt == None
    ensures Chronological(docs + [d], nextId + 1, clock + 1)
  {
    var t := docs + [d];
    assert forall i :: 0 <= i < |docs| ==> t[i] == docs[i];
    assert Increasing(t, IdOf) && Increasing(t, CreatedAt);
  }

  /**
   * After a bulk upload each new document has exactly two records among the
   * new ones: its ingestion record, then its parsing record.
   */
  lemma RecordsPerDocument(cfg: RetryConfig, created: seq<Document>, network: Network, k: nat)
    requires k < |created| && Increasing(created, IdOf)
    ensures Filter(IngestionRecords(created) + ParsingRecords(cfg, created, network), RowsOf(created[k].id))
      == [IngestionRecord(created[k].id), ParsingRecordFor(cfg, created[k].id, network)]
  {
    var id := created[k].id;
    var ing, par := IngestionRecords(created), ParsingRecords(cfg, created, network);
    forall i | 0 <= i < |created| && i != k ensures created[i].id != id {
      if i < k { assert IdOf(created[i]) < IdOf(created[k]); } else { assert IdOf(created[k]) < IdOf(created[i]); }
    }
    FilterSingle(ing, RowsOf(id), k);
    FilterSingle(par, RowsOf(id), k);
    FilterAppend(ing, par, RowsOf(id));
  }

  /** OFFSET (page - 1) * limit, written as one limit per earlier page. */
  function PageOffset(page: nat, limit: nat): nat
    requires page >= 1
  {
    if page == 1 then 0 else PageOffset(page - 1, limit) + limit
  }

  lemma {:induction false} PageOffsetIsProduct(page: nat, limit: nat)
    requires page >= 1
    ensures PageOffset(page, limit) == (page - 1) * limit
  {
    if page > 1 {
      PageOffsetIsProduct(page - 1, limit);
      assert (page - 1) * limit == (page - 2) * limit + limit;
    }
  }

  /** Position q of a listing is at index q % limit of page q / limit + 1. */
  lemma PageOfPosition(q: nat, limit: nat)
    requires limit > 0
    ensures PageOffset(q / limit + 1, limit) + q % limit == q
    ensures q % limit < limit
  {
    PageOffsetIsProduct(q / limit + 1, limit);
    assert (q / limit) * limit + q % limit == q;
  }

  class DocumentService {
    var documents: seq<Document>
    var statuses: seq<ProcessingStatus>
    var nextId: nat
    var clock: nat
    /** MAX_RETRIES, RETRY_DELAY and RETRY_BACKOFF, read from the environment at start-up. */
    const retry: RetryConfig

    ghost predicate Valid()
      reads this`documents, this`nextId, this`clock
    {
      Chronological(documents, nextId, clock)
    }

    constructor (retry: RetryConfig)
      ensures Valid() && documents == [] && statuses == [] && this.retry == retry
    {
      this.retry := retry;
      documents := [];
      statuses := [];
      nextId := 0;
      clock := 0;
    }

    function GetDocument(id: DocId): (r: Option<Document>)
      reads this`documents
      ensures r.Some? <==> exists i :: 0 <= i < |documents| && documents[i].id == id
      ensures r.Some? ==> r.value in documents && r.value.id == id
    {
      FindById(documents, id)
    }

    /** The matching documents, newest first. */
    function Listing(status: Option<string>, uploaderId: Option<string>): seq<Document>
      reads this`documents
    {
      NewestFirst(documents, status, uploaderId)
    }

    /**
     * get_documents: the page of the newest-first listing that starts at
     * PageOffset(page, limit) and holds at most `limit` rows, with the number of
     * matching documents.
     */
    function GetDocuments(page: nat, limit: nat, status: Option<string>, uploaderId: Option<string>): (r: (seq<Document>, nat))
      reads this`documents
      requires page >= 1
      ensures r.1 == |Filter(documents, Matches(status, uploaderId))|
      ensures |r.0| <= limit
      ensures |r.0| == if PageOffset(page, limit) >= r.1 then 0 else Min(limit, r.1 - PageOffset(page, limit))
      ensures forall k :: 0 <= k < |r.0| ==> r.0[k] == Listing(status, uploaderId)[PageOffset(page, limit) + k]
    {
      var listing := Listing(status, uploaderId);
      var offset: nat := PageOffset(page, limit);
      (Window(listing, offset, limit), |listing|)
    }

    /** Every returned row is a document that passes the filters. */
    lemma PageRowsMatch(page: nat, limit: nat, status: Option<string>, uploaderId: Option<string>)
      requires page >= 1
      ensures forall k :: 0 <= k < |GetDocuments(page, limit, status, uploaderId).0| ==>
        GetDocuments(page, limit, status, uploaderId).0[k] in documents &&
        Matches(status, uploaderId)(GetDocuments(page, limit, status, uploaderId).0[k])
    {
      NewestFirstMembers(documents, status, uploaderId);
    }

    /** The rows of a page are newest first. */
    lemma PageNewestFirst(page: nat, limit: nat, status: Option<string>, uploaderId: Option<string>)
      requires Valid() && page >= 1
      ensures Decreasing(GetDocuments(page, limit, status, uploaderId).0, CreatedAt)
    {
      NewestFirstOrdered(documents, status, uploaderId);
      WindowDecreasing(Listing(status, uploaderId), PageOffset(page, limit), limit, CreatedAt);
    }

    /** Each position q of the listing is shown on page q / limit + 1, at index q % limit. */
    lemma EveryMatchOnItsPage(status: Option<string>, uploaderId: Option<string>, limit: nat, q: nat)
      requires limit > 0 && q < |Listing(status, uploaderId)|
      ensures q % limit < |GetDocuments(q / limit + 1, limit, status, uploaderId).0|
      ensures GetDocuments(q / limit + 1, limit, status, uploaderId).0[q % limit] == Listing(status, uploaderId)[q]
    {
      PageOfPosition(q, limit);
    }

    function GetProcessingStatuses(id: DocId): (r: seq<ProcessingStatus>)
      reads this`statuses
      ensures forall k :: 0 <= k < |r| ==> r[k] in statuses && r[k].documentId == id
      ensures forall k :: 0 <= k < |statuses| && statuses[k].documentId == id ==> statuses[k] in r
      ensures forall x :: multiset(r)[x] == if x.documentId == id then multiset(statuses)[x] else 0
    {
      FilterMembers(statuses, RowsOf(id));
      FilterMultiset(statuses, RowsOf(id));
      Filter(statuses, RowsOf(id))
    }

    /** add_processing_status: always a new row at the end; no existing row changes. */
    method AddProcessingStatus(id: DocId, serviceName: string, status: string, errorMessage: Option<string>)
      returns (row: ProcessingStatus)
      modifies this`statuses
      ensures row == ProcessingStatus(id, serviceName, status, errorMessage)
      ensures statuses == old(statuses) + [row]
    {
      row := ProcessingStatus(id, serviceName, status, errorMessage);
      statuses := statuses + [row];
    }

    /** update_document_status: false for an unknown id; otherwise the document's status and update time change. */
    method UpdateDocumentStatus(id: DocId, status: string) returns (found: bool)
      requires Valid()
      modifies this`documents, this`clock
      ensures Valid()
      ensures found <==> old(GetDocument(id)).Some?
      ensures found ==> documents == WithStatus(old(documents), id, status, old(clock)) && clock == old(clock) + 1
      ensures !found ==> documents == old(documents) && clock == old(clock)
    {
      found := GetDocument(id).Some?;
      if found {
        WithStatusChronological(documents, id, status, nextId, clock);
        documents := WithStatus(documents, id, status, clock);
        clock := clock + 1;
      }
    }

    /** delete_document: false for an unknown id; otherwise the document and all its status rows go. */
    method DeleteDocument(id: DocId) returns (found: bool)
      requires Valid()
      modifies this`documents, this`statuses
      ensures Valid()
      ensures found <==> old(GetDocument(id)).Some?
      ensures found ==> documents == Filter(old(documents), OtherDocument(id))
      ensures found ==> statuses == Filter(old(statuses), RowsNotOf(id))
      ensures !found ==> documents == old(documents) && statuses == old(statuses)
    {
      found := GetDocument(id).Some?;
      if found {
        var kept := Filter(documents, OtherDocument(id));
        FilterChronological(documents, OtherDocument(id), nextId, clock);
        documents := kept;
        statuses := Filter(statuses, RowsNotOf(id));
      }
    }

    /** The insert and commit of upload_document: the database assigns the next id and the current time. */
    method InsertDocument(f: IncomingFile, stored: StoredFile, metadata: UploadMetadata, clinicName: Option<string>)
      returns (doc: Document)
      requires Valid()
      modifies this`documents, this`nextId, this`clock
      ensures Valid()
      ensures doc == NewDocument(old(nextId), old(clock), f, stored, metadata, clinicName)
      ensures documents == old(documents) + [doc]
      ensures nextId == old(nextId) + 1 && clock == old(clock) + 1
    {
      doc := NewDocument(nextId, clock, f, stored, metadata, clinicName);
      AppendNewChronological(documents, doc, nextId, clock);
      documents := documents + [doc];
      nextId := nextId + 1;
      clock := clock + 1;
    }

    /**
     * upload_document: store the file under the name generate_file_path
     * gives, insert the row with status "uploaded", record the completed
     * ingestion stage, then dispatch to parsing.
     */
    method UploadDocument(f: IncomingFile, naming: (nat, string) -> StoredFile, metadata: UploadMetadata,
                          clinicName: Option<string>, network: Network) returns (doc: Document)
      requires Valid()
      modifies this
      ensures Valid()
      ensures doc == NewDocument(old(nextId), old(clock), f, naming(old(nextId), f.filename), metadata, clinicName)
      ensures documents == old(documents) + [doc]
      ensures statuses == old(statuses) + [IngestionRecord(doc.id), ParsingRecordFor(retry, doc.id, network)]
    {
      doc := InsertDocument(f, naming(nextId, f.filename), metadata, clinicName);
      var _ := AddProcessingStatus(doc.id, INGESTION_SERVICE, "completed", None);
      var delays, calls := TriggerParsingService(doc.id, network);
      AppendAssoc(old(statuses), [IngestionRecord(doc.id)], [ParsingRecordFor(retry, doc.id, network)]);
    }

    /** The first loop of upload_documents_bulk: one new row per file, in order. */
    method AddDocuments(files: seq<IncomingFile>, naming: (nat, string) -> StoredFile, metadata: UploadMetadata,
                        clinicName: Option<string>) returns (created: seq<Document>)
      requires Valid()
      modifies this`documents, this`nextId, this`clock
      ensures Valid()
      ensures created == NewDocuments(files, old(nextId), old(clock), naming, metadata, clinicName)
      ensures documents == old(documents) + created
      ensures nextId == old(nextId) + |files| && clock == old(clock) + |files|
    {
      ghost var firstId, firstAt := nextId, clock;
      created := [];
      for k := 0 to |files|
        invariant Valid()
        invariant nextId == firstId + k && clock == firstAt + k
        invariant created == NewDocuments(files[..k], firstId, firstAt, naming, metadata, clinicName)
        invariant documents == old(documents) + created
      {
        var d := InsertDocument(files[k], naming(nextId, files[k].filename), metadata, clinicName);
        NewDocumentsSnoc(files, k, firstId, firstAt, naming, metadata, clinicName);
        AppendAssoc(old(documents), created, [d]);
        created := created + [d];
      }
      assert files[..|files|] == files;
    }

    /** The second loop of upload_documents_bulk: the completed ingestion record of every new row, in order. */
    method RecordIngestion(created: seq<Document>)
      modifies this`statuses
      ensures statuses == old(statuses) + IngestionRecords(created)
    {
      for k := 0 to |created|
        invariant statuses == old(statuses) + IngestionRecords(created[..k])
      {
        var _ := AddProcessingStatus(created[k].id, INGESTION_SERVICE, "completed", None);
        assert created[..k + 1] == created[..k] + [created[k]];
        IngestionRecordsAppend(created[..k], [created[k]]);
        AppendAssoc(old(statuses), IngestionRecords(created[..k]), [IngestionRecord(created[k].id)]);
      }
      assert created[..|created|] == created;
    }

    /** One batch of upload_documents_bulk: dispatch its rows in order. */
    method DispatchBatch(batch: seq<Document>, network: Network)
      modifies this`statuses
      ensures statuses == old(statuses) + ParsingRecords(retry, batch, network)
    {
      for i := 0 to |batch|
        invariant statuses == old(statuses) + ParsingRecords(retry, batch[..i], network)
      {
        var delays, calls := TriggerParsingService(batch[i].id, network);
        assert batch[..i + 1] == batch[..i] + [batch[i]];
        ParsingRecordsAppend(retry, batch[..i], [batch[i]], network);
        AppendAssoc(old(statuses), ParsingRecords(retry, batch[..i], network), [ParsingRecordFor(retry, batch[i].id, network)]);
      }
      assert batch[..|batch|] == batch;
    }

    /**
     * The batch loop of upload_documents_bulk: dispatch batch after batch,
     * pausing BATCH_DELAY after every batch but the last. Since the batches
     * partition the rows, every row is dispatched once, in creation order.
     */
    method DispatchInBatches(created: seq<Document>, network: Network) returns (pauses: nat)
      modifies this`statuses
      ensures statuses == old(statuses) + ParsingRecords(retry, created, network)
      ensures pauses == Pauses(BatchCount(|created|, BATCH_SIZE))
    {
      var n := |created|;
      var total := BatchCount(n, BATCH_SIZE);
      var done := 0;
      pauses := 0;
      FlattenPrefix(created, BATCH_SIZE, 0);
      for b := 0 to total
        invariant done == Min(BatchStart(b, BATCH_SIZE), n)
        invariant statuses == old(statuses) + ParsingRecords(retry, created[..done], network)
        invariant pauses == if b < total then b else Pauses(total)
        invariant created[..done] == Flatten(Batches(created, BATCH_SIZE)[..b])
      {
        var start := BatchStart(b, BATCH_SIZE);
        var end := BatchEnd(n, BATCH_SIZE, b);
        BatchStep(n, BATCH_SIZE, b);
        assert start == done;
        var rows := Batches(created, BATCH_SIZE)[b];
        assert rows == created[start..end];
        ghost var sent := ParsingRecords(retry, created[..start], network);
        ghost var batch := ParsingRecords(retry, rows, network);
        DispatchBatch(rows, network);
        PrefixRecords(retry, created, network, start, end);
        AppendAssoc(old(statuses), sent, batch);
        FlattenPrefix(created, BATCH_SIZE, b + 1);
        done := end;
        if b < total - 1 {
          pauses := pauses + 1;
        }
      }
      BatchesReachEnd(n, BATCH_SIZE);
      assert created[..n] == created;
    }

    /**
     * upload_documents_bulk: insert every row, record every ingestion, then
     * dispatch in batches. All ingestion records come before any parsing
     * record.
     */
    method UploadDocumentsBulk(files: seq<IncomingFile>, naming: (nat, string) -> StoredFile, metadata: UploadMetadata,
                               clinicName: Option<string>, network: Network)
      returns (created: seq<Document>, pauses: nat)
      requires Valid()
      modifies this
      ensures Valid()
      ensures created == NewDocuments(files, old(nextId), old(clock), naming, metadata, clinicName)
      ensures documents == old(documents) + created
      ensures statuses == old(statuses) + IngestionRecords(created) + ParsingRecords(retry, created, network)
      ensures pauses == Pauses(BatchCount(|files|, BATCH_SIZE))
    {
      created := AddDocuments(files, naming, metadata, clinicName);
      RecordIngestion(created);
      pauses := DispatchInBatches(created, network);
    }

    /**
     * trigger_parsing_service: POST up to MAX_RETRIES times, sleeping the
     * backoff delay where the policy says so, and append exactly one
     * "document_parsing" record describing how it ended.
     */
    method TriggerParsingService(id: DocId, network: Network) returns (delays: seq<real>, calls: nat)
      modifies this`statuses
      ensures statuses == old(statuses) + [ParsingRecordFor(retry, id, network)]
      ensures delays == Dispatch(retry, Attempts(network, id)).delays
      ensures calls == Dispatch(retry, Attempts(network, id)).calls
    {
      var run := RunDispatch(retry, Attempts(network, id));
      match run.outcome {
        case Accepted =>
          var _ := AddProcessingStatus(id, PARSING_SERVICE, "processing", None);
        case Failed(detail) =>
          var _ := AddProcessingStatus(id, PARSING_SERVICE, "failed", Some(detail));
      }
      delays, calls := run.delays, run.calls;
    }
  }
}
