/** Limits and defaults of the document-ingestion stage. */
module IngestionConfig {

  const MEBIBYTE: nat := 1024 * 1024

  /** Largest accepted single document, in bytes. */
  const MAX_FILE_SIZE: nat := 10 * MEBIBYTE

  /** Largest accepted ZIP archive, in bytes. */
  const MAX_ZIP_SIZE: nat := 100 * MEBIBYTE

  const ALLOWED_EXTENSIONS: set<string> := {".pdf", ".docx", ".png", ".jpg", ".jpeg", ".tiff", ".tif", ".zip"}

  const ALLOWED_MIME_TYPES: set<string> := {
    "application/pdf",
    "application/vnd.openxmlformats-officedocument.wordprocessingml.document",
    "image/png",
    "image/jpeg",
    "image/tiff",
    "application/zip",
    "application/x-zip-compressed"
  }

  /** Bulk dispatch: concurrency cap, documents per batch, pause between batches (seconds). */
  const MAX_CONCURRENT_PARSING: nat := 5
  const BATCH_SIZE: nat := 10
  const BATCH_DELAY: real := 2.0

  /** Retry policy of the hand-off to the parsing stage. */
  const MAX_RETRIES: nat := 3
  const RETRY_DELAY: real := 5.0
  const RETRY_BACKOFF: real := 2.0

  /** Both size limits are whole mebibytes, and the ZIP limit is ten times the document limit. */
  lemma SizeLimits()
    ensures MAX_FILE_SIZE == 10485760 && MAX_ZIP_SIZE == 104857600
    ensures MAX_FILE_SIZE % MEBIBYTE == 0 && MAX_ZIP_SIZE % MEBIBYTE == 0
    ensures MAX_FILE_SIZE < MAX_ZIP_SIZE
  {
  }

  /** Every allowed extension is a lower-case suffix that starts with a dot. */
  lemma ExtensionsAreDottedLowerCase()
    ensures forall e :: e in ALLOWED_EXTENSIONS ==> |e| >= 2 && e[0] == '.' && forall i :: 0 <= i < |e| ==> !('A' <= e[i] <= 'Z')
  {
  }

  /** Two of the three ZIP content types the upload route recognises are allowed; "application/x-zip" is not. */
  lemma ZipMimeTypes()
    ensures "application/zip" in ALLOWED_MIME_TYPES
    ensures "application/x-zip-compressed" in ALLOWED_MIME_TYPES
    ensures "application/x-zip" !in ALLOWED_MIME_TYPES
    ensures "application/octet-stream" !in ALLOWED_MIME_TYPES
  {
  }
}
