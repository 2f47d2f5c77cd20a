/** Text extraction for uploaded documents and the upload lifecycle (`document_service`):
    the file type picks an extractor (LlamaParse with a PyPDF2 fallback for PDF,
    python-docx for DOCX, a plain read for TXT), and `process_document` moves a document
    through processing to processed or error, scheduling indexing when the OpenAI and
    Pinecone keys are configured. What the libraries read from the file is an input. */
module DocumentService {
  import opened Common
  import opened Documents

  /** What PyPDF2 reads: the page count (or the error opening the file) and each page's
      extracted text (or the error extracting it). */
  datatype PdfReader = PdfReader(pageCount: Result<nat>, page: nat -> Result<string>)

  /** Reading the file as UTF-8: its text, a `UnicodeDecodeError`, or any other error. */
  datatype Utf8Read = Decoded(text: string) | NotUtf8 | Unreadable(error: string)

  /** What each library makes of the document's file. */
  datatype FileReads = FileReads(
    llamaPages: Result<seq<string>>,
    fallback: PdfReader,
    paragraphs: Result<seq<string>>,
    utf8: Utf8Read,
    latin1: Result<string>)

  function PageBreak(): string {
    "\n\n<!-- Page " + "Break -->\n\n"
  }

  function LlamaKeyMessage(): string {
    "LLAMA_CLOUD_API_KEY not " + "set. Please provide a " + "valid API key."
  }

  /** `Failed to extract text from <kind>: <e>`. */
  function FailureMessage(kind: string, e: string): string {
    "Failed to extract " + "text from " + kind + ": " + e
  }

  function UnsupportedTypeMessage(fileType: string): string {
    "Unsupported file " + "type: " + fileType
  }

  // ---------------------------------------------------------------------------
  // PDF.

  /** The PyPDF2 loop over the first `n` pages: every page's text followed by a page
      break; the first page whose extraction fails ends it with that error. */
  function FallbackPages(page: nat -> Result<string>, n: nat): Result<string> {
    if n == 0 then Ok("")
    else
      match FallbackPages(page, n - 1)
      case Err(e) => Err(e)
      case Ok(text) =>
        match page(n - 1)
        case Err(e) => Err(e)
        case Ok(p) => Ok(text + p + PageBreak())
  }

  /** The fallback's result: every failure is reported as a PDF extraction failure. */
  function FallbackText(reader: PdfReader): Result<string> {
    match reader.pageCount
    case Err(e) => Err(FailureMessage("PDF", e))
    case Ok(n) =>
      match FallbackPages(reader.page, n)
      case Err(e) => Err(FailureMessage("PDF", e))
      case Ok(text) => Ok(text)
  }

  /** `extract_text_from_pdf`: without a LlamaParse key nothing is attempted; otherwise
      the parsed pages are joined with page breaks between them, and a LlamaParse
      failure falls back to PyPDF2. */
  function PdfText(llamaKey: Option<string>, files: FileReads): Result<string> {
    if !IsSet(llamaKey) then Err(LlamaKeyMessage())
    else
      match files.llamaPages
      case Ok(pages) => Ok(Join(PageBreak(), pages))
      case Err(_) => FallbackText(files.fallback)
  }

  /** Once a page fails, every longer run of the loop fails with that page's error. */
  lemma {:induction false} FallbackStops(page: nat -> Result<string>, k: nat, m: nat)
    requires k < m && FallbackPages(page, k).Ok? && page(k).Err?
    ensures FallbackPages(page, m) == Err(page(k).error)
  {
    if m - 1 > k {
      FallbackStops(page, k, m - 1);
    }
  }

  /** The texts of the first `n` pages, when they all extract. */
  function PageTexts(page: nat -> Result<string>, n: nat): (texts: seq<string>)
    requires forall i :: 0 <= i < n ==> page(i).Ok?
    ensures |texts| == n && forall i :: 0 <= i < n ==> texts[i] == page(i).value
  {
    seq(n, i requires 0 <= i < n => page(i).value)
  }

  /** When every page extracts, the fallback is the pages joined by page breaks with one
      more page break after the last page. */
  lemma {:induction false} FallbackJoin(page: nat -> Result<string>, n: nat)
    requires 0 < n && forall i :: 0 <= i < n ==> page(i).Ok?
    ensures FallbackPages(page, n) == Ok(Join(PageBreak(), PageTexts(page, n)) + PageBreak())
  {
    var texts := PageTexts(page, n);
    if n == 1 {
      assert FallbackPages(page, 0) == Ok("");
      assert "" + page(0).value + PageBreak() == Join(PageBreak(), texts) + PageBreak();
    } else {
      FallbackJoin(page, n - 1);
      var front := PageTexts(page, n - 1);
      assert texts[..n - 1] == front;
      assert Join(PageBreak(), texts) == Join(PageBreak(), front) + PageBreak() + page(n - 1).value;
    }
  }

  /** The two PDF paths on the same pages differ by the trailing page break only. */
  lemma FallbackAddsBreak(llamaKey: Option<string>, files: FileReads, e: string)
    requires IsSet(llamaKey) && files.llamaPages.Ok? && files.llamaPages.value != []
    requires var pages := files.llamaPages.value;
      files.fallback.pageCount == Ok(|pages|) && forall i :: 0 <= i < |pages| ==> files.fallback.page(i) == Ok(pages[i])
    ensures PdfText(llamaKey, files.(llamaPages := Err(e)))
      == Ok(PdfText(llamaKey, files).value + PageBreak())
  {
    var pages := files.llamaPages.value;
    FallbackJoin(files.fallback.page, |pages|);
    assert PageTexts(files.fallback.page, |pages|) == pages;
  }

  /** A failure in the fallback is reported as a PDF failure with the first failing
      page's error. */
  lemma FallbackFirstFailure(reader: PdfReader, k: nat)
    requires reader.pageCount.Ok? && k < reader.pageCount.value
    requires forall i :: 0 <= i < k ==> reader.page(i).Ok?
    requires reader.page(k).Err?
    ensures FallbackText(reader) == Err(FailureMessage("PDF", reader.page(k).error))
  {
    FallbackAllOk(reader.page, k);
    FallbackStops(reader.page, k, reader.pageCount.value);
  }

  /** The loop succeeds on pages that all extract. */
  lemma {:induction false} FallbackAllOk(page: nat -> Result<string>, n: nat)
    requires forall i :: 0 <= i < n ==> page(i).Ok?
    ensures FallbackPages(page, n).Ok?
  {
    if n > 0 {
      FallbackAllOk(page, n - 1);
    }
  }

  /** The PyPDF2 fallback, accumulating the text page by page. */
  method PdfFallback(reader: PdfReader) returns (r: Result<string>)
    ensures r == FallbackText(reader)
  {
    if reader.pageCount.Err? {
      return Err(FailureMessage("PDF", reader.pageCount.error));
    }
    var n := reader.pageCount.value;
    var text := "";
    for pageNum := 0 to n
      invariant FallbackPages(reader.page, pageNum) == Ok(text)
    {
      var page := reader.page(pageNum);
      if page.Err? {
        FallbackStops(reader.page, pageNum, n);
        return Err(FailureMessage("PDF", page.error));
      }
      text := text + page.value + PageBreak();
    }
    r := Ok(text);
  }

  method ExtractPdf(llamaKey: Option<string>, files: FileReads) returns (r: Result<string>)
    ensures r == PdfText(llamaKey, files)
  {
    if !IsSet(llamaKey) {
      return Err(LlamaKeyMessage());
    }
    if files.llamaPages.Ok? {
      return Ok(Join(PageBreak(), files.llamaPages.value));
    }
    r := PdfFallback(files.fallback);
  }

  // ---------------------------------------------------------------------------
  // DOCX and TXT.

  /** The paragraphs whose `strip()` is non-empty, in order. */
  function NonBlank(paragraphs: seq<string>): (kept: seq<string>)
    ensures |kept| <= |paragraphs|
  {
    if paragraphs == [] then []
    else
      var rest := NonBlank(paragraphs[..|paragraphs| - 1]);
      var last := paragraphs[|paragraphs| - 1];
      if IsBlank(last) then rest else rest + [last]
  }

  /** Exactly the non-blank paragraphs are kept. */
  lemma {:induction false} NonBlankMembers(paragraphs: seq<string>)
    ensures forall p :: p in NonBlank(paragraphs) <==> p in paragraphs && !IsBlank(p)
  {
    if paragraphs != [] {
      var front := paragraphs[..|paragraphs| - 1];
      NonBlankMembers(front);
      assert paragraphs == front + [paragraphs[|paragraphs| - 1]];
    }
  }

  /** The filter keeps the order: it distributes over concatenation. */
  lemma {:induction false} NonBlankAppend(a: seq<string>, b: seq<string>)
    ensures NonBlank(a + b) == NonBlank(a) + NonBlank(b)
  {
    if b == [] {
      assert a + b == a;
    } else {
      var front := b[..|b| - 1];
      NonBlankAppend(a, front);
      assert (a + b)[..|a + b| - 1] == a + front;
      assert b[..|b| - 1] == front;
    }
  }

  /** `extract_text_from_docx`. */
  function DocxText(paragraphs: Result<seq<string>>): Result<string> {
    match paragraphs
    case Err(e) => Err(FailureMessage("DOCX", e))
    case Ok(ps) => Ok(Join("\n", NonBlank(ps)))
  }

  /** Every non-blank paragraph appears in the DOCX text. */
  lemma DocxKeepsText(ps: seq<string>, i: nat)
    requires i < |ps| && !IsBlank(ps[i])
    ensures Contains(DocxText(Ok(ps)).value, ps[i])
  {
    NonBlankMembers(ps);
    var kept := NonBlank(ps);
    assert ps[i] in kept;
    var j :| 0 <= j < |kept| && kept[j] == ps[i];
    JoinContains("\n", kept, j);
  }

  /** `extract_text_from_txt`: a file that is not UTF-8 is read again as Latin-1, and an
      error in that second read is not wrapped. */
  function TxtText(utf8: Utf8Read, latin1: Result<string>): Result<string> {
    match utf8
    case Decoded(text) => Ok(text)
    case NotUtf8 => latin1
    case Unreadable(e) => Err(FailureMessage("TXT", e))
  }

  // ---------------------------------------------------------------------------
  // Dispatch and the lifecycle.

  /** `extract_text_from_file`. */
  function ExtractText(fileType: string, files: FileReads, llamaKey: Option<string>): (r: Result<string>)
    ensures fileType != "pdf" && fileType != "docx" && fileType != "txt" ==>
      r == Err(UnsupportedTypeMessage(fileType))
  {
    if fileType == "pdf" then PdfText(llamaKey, files)
    else if fileType == "docx" then DocxText(files.paragraphs)
    else if fileType == "txt" then TxtText(files.utf8, files.latin1)
    else Err(UnsupportedTypeMessage(fileType))
  }

  /** Which file reads each type consults: a PDF's result does not depend on the DOCX or
      TXT reads, and so on; a PDF without a LlamaParse key fails whatever the file holds. */
  lemma ExtractReadsOnlyItsFile(fileType: string, files: FileReads, other: FileReads, llamaKey: Option<string>)
    ensures fileType == "pdf" && files.llamaPages == other.llamaPages && files.fallback == other.fallback ==>
      ExtractText(fileType, files, llamaKey) == ExtractText(fileType, other, llamaKey)
    ensures fileType == "pdf" && !IsSet(llamaKey) ==>
      ExtractText(fileType, files, llamaKey) == Err(LlamaKeyMessage())
    ensures fileType == "docx" && files.paragraphs == other.paragraphs ==>
      ExtractText(fileType, files, llamaKey) == ExtractText(fileType, other, None)
    ensures fileType == "txt" && files.utf8 == other.utf8 && (files.utf8 == NotUtf8 ==> files.latin1 == other.latin1) ==>
      ExtractText(fileType, files, llamaKey) == ExtractText(fileType, other, None)
  {
  }

  method Extract(fileType: string, files: FileReads, llamaKey: Option<string>) returns (r: Result<string>)
    ensures r == ExtractText(fileType, files, llamaKey)
  {
    if fileType == "pdf" {
      r := ExtractPdf(llamaKey, files);
    } else if fileType == "docx" {
      r := DocxText(files.paragraphs);
    } else if fileType == "txt" {
      r := TxtText(files.utf8, files.latin1);
    } else {
      r := Err(UnsupportedTypeMessage(fileType));
    }
  }

  /** `process_document`: a missing document changes nothing; a found one is marked
      processing, then either gets its text and is marked processed (indexing is
      scheduled when both keys are set) or is marked error with the exception's text. */
  method ProcessDocument(doc: Document?, files: FileReads, llamaKey: Option<string>,
                         openAiKey: Option<string>, pineconeKey: Option<string>) returns (scheduleIndexing: bool)
    modifies doc
    ensures doc == null ==> !scheduleIndexing
    ensures doc != null ==>
      var r := ExtractText(doc.fileType, files, llamaKey);
      && (r.Ok? ==>
            && doc.contentText == Some(r.value) && doc.status == Processed
            && doc.errorMessage == old(doc.errorMessage)
            && doc.statusLog == old(doc.statusLog) + [Processing, Processed]
            && scheduleIndexing == (IsSet(openAiKey) && IsSet(pineconeKey)))
      && (r.Err? ==>
            && doc.contentText == old(doc.contentText) && doc.status == Error
            && doc.errorMessage == Some(r.error)
            && doc.statusLog == old(doc.statusLog) + [Processing, Error]
            && !scheduleIndexing)
  {
    if doc == null {
      return false;
    }
    doc.SetStatus(Processing);
    var extracted := Extract(doc.fileType, files, llamaKey);
    if extracted.Err? {
      doc.Fail(extracted.error);
      return false;
    }
    doc.contentText := Some(extracted.value);
    doc.SetStatus(Processed);
    scheduleIndexing := IsSet(openAiKey) && IsSet(pineconeKey);
  }
}
