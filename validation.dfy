/**
 * Upload validation of the ingestion stage: size, extension and content
 * checks, run in that order after the filename check. Each check either
 * passes or raises an HTTP error (400, or 413 for size).
 */
module Validation {
  import opened Wrappers
  import opened Common
  import opened Text
  import opened IngestionConfig

  /** The parts of an uploaded file the checks look at; `size` is None when the client did not send it. */
  datatype UploadFile = UploadFile(filename: Option<string>, size: Option<nat>, content: seq<byte>)

  /** Whether libmagic could be loaded, and if so what it reports for the file's first bytes. */
  datatype Detector = NoMagic | Magic(detected: string)

  datatype ValidationError =
    | NoFilename
    | TooLarge(maxSize: nat)
    | ExtensionNotAllowed(extension: string)
    | ContentNotAllowed(mimeType: string)
  {
    function Code(): nat
    {
      if TooLarge? then 413 else 400
    }
  }

  /** What validation hands back: the content type and the preview it read. */
  datatype Accepted = Accepted(mimeType: string, preview: seq<byte>)

  /** Python truthiness of an optional filename. */
  predicate HasName(filename: Option<string>)
  {
    filename.Some? && filename.value != ""
  }

  function SizeLimit(file: UploadFile): nat
  {
    if HasName(file.filename) && EndsWith(Lower(file.filename.value), ".zip") then MAX_ZIP_SIZE else MAX_FILE_SIZE
  }

  function ValidateFileSize(file: UploadFile): Outcome<ValidationError>
  {
    if file.size.Some? && file.size.value != 0 && file.size.value > SizeLimit(file)
    then Fail(TooLarge(SizeLimit(file)))
    else Pass
  }

  /** Path(filename).suffix.lower() */
  function Extension(filename: string): string
  {
    Lower(PathSuffix(filename))
  }

  function ValidateFileExtension(filename: string): Outcome<ValidationError>
  {
    if Extension(filename) in ALLOWED_EXTENSIONS then Pass else Fail(ExtensionNotAllowed(Extension(filename)))
  }

  /** file.file.read(1024): at most the first 1024 bytes. */
  function Preview(content: seq<byte>): seq<byte>
  {
    content[..Min(1024, |content|)]
  }

  /** PK\x03\x04, PK\x05\x06 and PK\x07\x08. */
  const ZIP_SIGNATURES: set<seq<byte>> := {[0x50, 0x4B, 0x03, 0x04], [0x50, 0x4B, 0x05, 0x06], [0x50, 0x4B, 0x07, 0x08]}

  /** The content type guessed from the lower-cased name when libmagic is absent. */
  function FallbackMime(filename: Option<string>): string
  {
    if !HasName(filename) then "application/octet-stream"
    else
      var n := Lower(filename.value);
      if EndsWith(n, ".pdf") then "application/pdf"
      else if EndsWith(n, ".jpg") || EndsWith(n, ".jpeg") then "image/jpeg"
      else if EndsWith(n, ".png") then "image/png"
      else if EndsWith(n, ".zip") then "application/zip"
      else "application/octet-stream"
  }

  /** The type libmagic reported, after the ZIP-signature rescue for `.zip` names. */
  function DetectedMime(file: UploadFile, detected: string): string
  {
    var preview := Preview(file.content);
    var isZip := HasName(file.filename) && EndsWith(Strip(Lower(file.filename.value)), ".zip");
    if isZip && (detected == "application/octet-stream" || detected !in ALLOWED_MIME_TYPES)
       && preview[..Min(4, |preview|)] in ZIP_SIGNATURES
    then "application/zip"
    else detected
  }

  function ValidateFileContent(file: UploadFile, detector: Detector): Result<Accepted, ValidationError>
  {
    var preview := Preview(file.content);
    match detector
    case Magic(detected) =>
      var mime := DetectedMime(file, detected);
      if mime !in ALLOWED_MIME_TYPES then Failure(ContentNotAllowed(mime)) else Success(Accepted(mime, preview))
    case NoMagic =>
      Success(Accepted(FallbackMime(file.filename), preview))
  }

  /**
   * validate_upload_file: filename, then size, then extension, then content.
   * The first failing check decides the error.
   */
  function ValidateUploadFile(file: UploadFile, detector: Detector): (r: Result<Accepted, ValidationError>)
    ensures r == Failure(NoFilename) <==> !HasName(file.filename)
    ensures r.Failure? && r.error.TooLarge? <==>
      HasName(file.filename) && file.size.Some? && file.size.value > SizeLimit(file)
    ensures r.Failure? && r.error.ExtensionNotAllowed? <==>
      HasName(file.filename) && ValidateFileSize(file).Pass? && Extension(file.filename.value) !in ALLOWED_EXTENSIONS
    ensures r.Failure? ==> r.error.Code() in {400, 413}
    ensures r.Failure? && r.error.Code() == 413 ==> r.error.maxSize < file.size.value
    ensures r.Success? ==>
      && HasName(file.filename)
      && (file.size.Some? ==> file.size.value <= SizeLimit(file))
      && Extension(file.filename.value) in ALLOWED_EXTENSIONS
      && (detector.Magic? ==> r.value.mimeType in ALLOWED_MIME_TYPES)
      && (detector.Magic? && detector.detected in ALLOWED_MIME_TYPES ==> r.value.mimeType == detector.detected)
      && r.value.preview == file.content[..Min(1024, |file.content|)]
  {
    if !HasName(file.filename) then Failure(NoFilename)
    else match ValidateFileSize(file)
      case Fail(e) => Failure(e)
      case Pass =>
        match ValidateFileExtension(file.filename.value)
        case Fail(e) => Failure(e)
        case Pass =>
          OctetStreamUnlisted();
          ValidateFileContent(file, detector)
  }

  /** The generic binary type is not an allowed upload type. */
  lemma OctetStreamUnlisted()
    ensures "application/octet-stream" !in ALLOWED_MIME_TYPES
  {
  }

  /** Without libmagic the content check never rejects. */
  lemma FallbackNeverRejects(file: UploadFile)
    ensures ValidateFileContent(file, NoMagic).Success?
    ensures ValidateFileContent(file, NoMagic).value.mimeType in
      {"application/pdf", "image/jpeg", "image/png", "application/zip", "application/octet-stream"}
  {
  }

  /** A `.zip` upload that libmagic misreads is still accepted as application/zip when it starts with a ZIP signature. */
  lemma ZipSignatureRescue(file: UploadFile, detected: string)
    requires HasName(file.filename) && EndsWith(Strip(Lower(file.filename.value)), ".zip")
    requires detected !in ALLOWED_MIME_TYPES
    requires |file.content| >= 4 && file.content[..4] in ZIP_SIGNATURES
    ensures ValidateFileContent(file, Magic(detected)) == Success(Accepted("application/zip", Preview(file.content)))
  {
    var preview := Preview(file.content);
    assert preview[..Min(4, |preview|)] == file.content[..4];
  }

  /**
   * An allowed type from libmagic is returned unchanged: the ZIP rescue only
   * looks at generic or unlisted types, and application/octet-stream is not
   * listed.
   */
  lemma AllowedDetectionStands(file: UploadFile, detected: string)
    requires detected in ALLOWED_MIME_TYPES
    ensures ValidateFileContent(file, Magic(detected)) == Success(Accepted(detected, Preview(file.content)))
    ensures ValidateUploadFile(file, Magic(detected)).Success? ==> ValidateUploadFile(file, Magic(detected)).value.mimeType == detected
  {
    OctetStreamUnlisted();
  }

  /** Content that does not start with a ZIP signature keeps the type libmagic gave, so a disallowed one is refused. */
  lemma NoSignatureNoRescue(file: UploadFile, detected: string)
    requires detected !in ALLOWED_MIME_TYPES
    requires |file.content| < 4 || file.content[..4] !in ZIP_SIGNATURES
    ensures ValidateFileContent(file, Magic(detected)) == Failure(ContentNotAllowed(detected))
  {
    var preview := Preview(file.content);
    if |file.content| >= 4 {
      assert preview[..Min(4, |preview|)] == file.content[..4];
    } else {
      assert |preview[..Min(4, |preview|)]| < 4;
    }
  }

  /** No accepted upload is ever labelled "application/x-zip". */
  lemma NeverXZip(file: UploadFile, detector: Detector)
    requires ValidateUploadFile(file, detector).Success?
    ensures ValidateUploadFile(file, detector).value.mimeType != "application/x-zip"
  {
    ZipMimeTypes();
    if detector.NoMagic? {
      NoMagicSkipsContentCheck(file);
      FallbackNeverRejects(file);
    }
  }

  /**
   * Without libmagic the content check only guesses from the name, so any
   * upload that passes the name, size and extension checks is accepted.
   */
  lemma NoMagicSkipsContentCheck(file: UploadFile)
    requires HasName(file.filename)
    requires file.size.None? || file.size.value <= SizeLimit(file)
    requires Extension(file.filename.value) in ALLOWED_EXTENSIONS
    ensures ValidateUploadFile(file, NoMagic) == Success(Accepted(FallbackMime(file.filename), Preview(file.content)))
  {
  }

  /**
   * Path(name + "/").suffix is that of the name: the trailing slash (or
   * "/.") is dropped before the final component is taken, so "report.pdf/"
   * passes the extension check as ".pdf".
   */
  lemma TrailingSlashKeepsExtension(base: string)
    requires |base| > 0 && '/' !in base && '.' !in base
    ensures Extension(base + ".pdf" + "/") == ".pdf"
    ensures Extension(base + ".pdf" + "/.") == ".pdf"
    ensures ValidateFileExtension(base + ".pdf" + "/").Pass?
  {
    PathSuffixOfPlainName(base, ".pdf");
    PathSuffixIgnoresTrailing(base + ".pdf");
    PdfLower();
  }

  lemma PdfLower()
    ensures Lower(".pdf") == ".pdf"
  {
    forall i | 0 <= i < 4 ensures LowerChar(".pdf"[i]) == ".pdf"[i] { }
  }

  /** Path("report.docx").suffix is ".docx". */
  lemma DocxSuffix()
    ensures PathSuffix("report.docx") == ".docx"
  {
    assert "report" + ".docx" == "report.docx";
    PathSuffixOfPlainName("report", ".docx");
  }

  lemma DocxLower()
    ensures Lower(".docx") == ".docx"
  {
    forall i | 0 <= i < 5 ensures LowerChar(".docx"[i]) == ".docx"[i] { }
  }

  /** ".docx" matches none of the fallback's known suffixes. */
  lemma DocxFallback()
    ensures FallbackMime(Some("report.docx")) == "application/octet-stream"
  {
    var name := "report.docx";
    assert Lower(name) == name by {
      forall i | 0 <= i < |name| ensures LowerChar(name[i]) == name[i] { }
    }
    NotEndsWith(name, ".pdf", 0);
    NotEndsWith(name, ".jpg", 0);
    NotEndsWith(name, ".jpeg", 1);
    NotEndsWith(name, ".png", 0);
    NotEndsWith(name, ".zip", 0);
  }

  /**
   * Without libmagic an upload whose name matches none of the known
   * suffixes is accepted as application/octet-stream, a type outside the
   * allowed list.
   */
  lemma FallbackAcceptsUnlistedType(file: UploadFile)
    requires HasName(file.filename)
    requires file.size.None? || file.size.value <= SizeLimit(file)
    requires Extension(file.filename.value) in ALLOWED_EXTENSIONS
    requires FallbackMime(file.filename) == "application/octet-stream"
    ensures ValidateUploadFile(file, NoMagic).Success?
    ensures ValidateUploadFile(file, NoMagic).value.mimeType !in ALLOWED_MIME_TYPES
  {
    NoMagicSkipsContentCheck(file);
    ZipMimeTypes();
  }

  /** "report.docx" is such a name: its extension is allowed and the fallback does not recognise it. */
  lemma DocxIsUnlisted()
    ensures Extension("report.docx") in ALLOWED_EXTENSIONS
    ensures FallbackMime(Some("report.docx")) == "application/octet-stream"
  {
    DocxSuffix();
    DocxLower();
    DocxFallback();
  }
}
