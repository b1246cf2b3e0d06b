/**
  The handler template of `src/handlers.py`: `ContentHandler.handle` derives the output file name,
  runs the format's `_handle` (parse, assemble the text, detect its language, set the metadata,
  write the text) and records the outcome. One instance serves every file of its format, and its
  fields keep their values from one call to the next. The parsers and `langdetect` are inputs.
 */
module Handlers {
  import opened Wrappers
  import opened Text
  import opened Paths
  import opened Schemas

  /** The four handlers, named by the extension that selects them. */
  datatype Format = Pdf | Docx | Xlsx | Html

  /**
    What a format's parser yields: the page texts of a PDF, the paragraphs of a DOCX, the cell
    values of every row of every XLSX sheet (`None` for an empty cell, otherwise `str(cell)`), the
    text of an HTML page; and the author and the formatted creation date where the format has them.
   */
  datatype Document =
    | PdfDocument(pageTexts: seq<string>, author: Option<string>, created: Option<string>)
    | DocxDocument(paragraphs: seq<string>, author: Option<string>, created: Option<string>)
    | XlsxWorkbook(sheets: seq<seq<seq<Option<string>>>>, creator: Option<string>, created: Option<string>)
    | HtmlPage(text: string)

  function FormatOf(d: Document): Format {
    match d
    case PdfDocument(_, _, _) => Pdf
    case DocxDocument(_, _, _) => Docx
    case XlsxWorkbook(_, _, _) => Xlsx
    case HtmlPage(_) => Html
  }

  /** The `metadata` dictionary: each key maps to a value or to `None`. */
  type Metadata = map<string, Option<MetaValue>>

  /** The keys each format's `_handle` puts in `metadata`. */
  function MetadataKeys(f: Format): set<string> {
    match f
    case Pdf => {"document_page_count", "author", "creation_date", "language"}
    case Docx => {"document_page_count", "author", "creation_date", "language"}
    case Xlsx => {"author", "creation_date", "language"}
    case Html => {"language"}
  }

  /** The cells of a row that are not `None`, in order. */
  function PresentCells(row: seq<Option<string>>): (cells: seq<string>)
    ensures |cells| <= |row|
    ensures forall c :: c in cells <==> Some(c) in row
  {
    if row == [] then []
    else (if row[0].Some? then [row[0].value] else []) + PresentCells(row[1..])
  }

  /** The present cells of two pieces of a row are those of each piece, in order and with repeats. */
  lemma {:induction false} PresentCellsAppend(a: seq<Option<string>>, b: seq<Option<string>>)
    ensures PresentCells(a + b) == PresentCells(a) + PresentCells(b)
  {
    if a == [] {
      assert a + b == b;
    } else {
      assert (a + b)[0] == a[0];
      assert (a + b)[1..] == a[1..] + b;
      PresentCellsAppend(a[1..], b);
    }
  }

  /** `" ".join(str(cell) for cell in row if cell is not None)`. */
  function RowText(row: seq<Option<string>>): string {
    Join(PresentCells(row), " ")
  }

  /** The number of rows in all sheets together. */
  function RowCount(sheets: seq<seq<seq<Option<string>>>>): nat {
    if sheets == [] then 0 else |sheets[0]| + RowCount(sheets[1..])
  }

  /** The text of every row of every sheet, sheet after sheet. */
  function WorkbookRows(sheets: seq<seq<seq<Option<string>>>>): (rows: seq<string>)
    ensures |rows| == RowCount(sheets)
  {
    if sheets == [] then []
    else seq(|sheets[0]|, i requires 0 <= i < |sheets[0]| => RowText(sheets[0][i])) + WorkbookRows(sheets[1..])
  }

  /** The text `_handle` assembles, detects the language of and writes. */
  function ExtractedText(d: Document): string {
    match d
    case PdfDocument(pageTexts, _, _) => Join(pageTexts, "\n")
    case DocxDocument(paragraphs, _, _) => Join(paragraphs, "\n")
    case XlsxWorkbook(sheets, _, _) => Join(WorkbookRows(sheets), "\n")
    case HtmlPage(text) => text
  }

  /** An optional text as a metadata value. */
  function TextValue(v: Option<string>): Option<MetaValue> {
    if v.Some? then Some(Str(v.value)) else None
  }

  /** The dictionary `_handle` assigns to `self.metadata` once the language is known. */
  function MetadataOf(d: Document, language: string): (m: Metadata)
    ensures m.Keys == MetadataKeys(FormatOf(d))
    ensures m["language"] == Some(Str(language))
    ensures d.PdfDocument? ==> m["document_page_count"] == Some(Count(|d.pageTexts|))
    ensures d.DocxDocument? ==> m["document_page_count"] == Some(Count(|d.paragraphs|))
    ensures d.PdfDocument? || d.DocxDocument? ==>
      m["author"] == TextValue(d.author) && m["creation_date"] == TextValue(d.created)
    ensures d.XlsxWorkbook? ==> m["author"] == TextValue(d.creator) && m["creation_date"] == TextValue(d.created)
  {
    match d
    case PdfDocument(pageTexts, author, created) =>
      map["document_page_count" := Some(Count(|pageTexts|)), "author" := TextValue(author),
          "creation_date" := TextValue(created), "language" := Some(Str(language))]
    case DocxDocument(paragraphs, author, created) =>
      map["document_page_count" := Some(Count(|paragraphs|)), "author" := TextValue(author),
          "creation_date" := TextValue(created), "language" := Some(Str(language))]
    case XlsxWorkbook(_, creator, created) =>
      map["author" := TextValue(creator), "creation_date" := TextValue(created), "language" := Some(Str(language))]
    case HtmlPage(_) =>
      map["language" := Some(Str(language))]
  }

  /**
    `file_path.split("/")[-1].split(".")[0] + ".txt"`: the last path component up to its first dot,
    with `.txt` appended.
   */
  function OutputName(filePath: string): (name: string)
    ensures IsPlainName(name)
    ensures IsSuffix(".txt", name)
    ensures '.' !in name[..|name| - 4]
    ensures name[..|name| - 4] <= AfterLast(filePath, '/')
    // The stem runs up to the first dot of the last component, or to its end.
    ensures |name| - 4 == |AfterLast(filePath, '/')| || AfterLast(filePath, '/')[|name| - 4] == '.'
  {
    var stem := BeforeFirst(AfterLast(filePath, '/'), '.');
    assert (stem + ".txt")[..|stem|] == stem;
    stem + ".txt"
  }

  /** The values of the four mutable fields. */
  datatype HandlerState = HandlerState(status: Status, errorMessage: string, path: string, metadata: Metadata)

  /** The values `__init__` gives them. */
  const InitialHandler: HandlerState := HandlerState(Success, "", "", map[])

  /**
    `handle` on a handler in state `s`, writing to `name` in `folder`, when the parser gave
    `parsed`, `langdetect` maps a text to `detect` of it, and writing the text raised `writeError`
    (or nothing).
   */
  function AfterHandle(s: HandlerState, folder: string, name: string, parsed: Result<Document, string>,
                       detect: string -> Result<string, string>, writeError: Option<string>): (t: HandlerState)
    // The destination path is stored on success and on failure.
    ensures t.path == JoinPath(folder, name)
    // The status is never set back to success, and stays success only when every step succeeds.
    ensures t.status == Success <==>
      s.status == Success && parsed.Ok? && detect(ExtractedText(parsed.value)).Ok? && writeError.None?
    ensures t.status != s.status ==> t.status == FailedProcessing
    // The metadata is replaced only once the language is known; earlier failures keep the old one.
    ensures parsed.Ok? && detect(ExtractedText(parsed.value)).Ok? ==>
      t.metadata == MetadataOf(parsed.value, detect(ExtractedText(parsed.value)).value)
    ensures parsed.Raised? || detect(ExtractedText(parsed.value)).Raised? ==> t.metadata == s.metadata
    // The message is the exception's on failure and the previous one on success.
    ensures parsed.Raised? ==> t.errorMessage == parsed.error
    ensures parsed.Ok? && detect(ExtractedText(parsed.value)).Raised? ==>
      t.errorMessage == detect(ExtractedText(parsed.value)).error
    ensures parsed.Ok? && detect(ExtractedText(parsed.value)).Ok? ==>
      t.errorMessage == if writeError.Some? then writeError.value else s.errorMessage
  {
    var handled :=
      match parsed
      case Raised(message) => s.(status := FailedProcessing, errorMessage := message)
      case Ok(d) =>
        match detect(ExtractedText(d))
        case Raised(message) => s.(status := FailedProcessing, errorMessage := message)
        case Ok(language) =>
          var described := s.(metadata := MetadataOf(d, language));
          if writeError.Some? then described.(status := FailedProcessing, errorMessage := writeError.value)
          else described;
    handled.(path := JoinPath(folder, name))
  }

  /**
    Only the `except` branches write a message, and each of them also writes `failed_processing`,
    which is never set back: a handler that reports success holds no message.
   */
  predicate NoHandleMessageOnSuccess(s: HandlerState) {
    s.status == Success ==> s.errorMessage == ""
  }

  /** `handle` keeps a handler that reports success free of a message. */
  lemma AfterHandleKeepsNoMessage(s: HandlerState, folder: string, name: string, parsed: Result<Document, string>,
                                  detect: string -> Result<string, string>, writeError: Option<string>)
    requires NoHandleMessageOnSuccess(s)
    ensures NoHandleMessageOnSuccess(AfterHandle(s, folder, name, parsed, detect, writeError))
  {
  }

  /** A handler: its format and default folder, and four mutable fields. */
  class ContentHandler {
    const format: Format
    const destFolder: string
    var downloadStatus: Status
    var errorMessage: string
    var path: string
    var metadata: Metadata

    function State(): HandlerState
      reads this
    {
      HandlerState(downloadStatus, errorMessage, path, metadata)
    }

    constructor (format: Format, destFolder: string)
      ensures this.format == format && this.destFolder == destFolder
      ensures State() == InitialHandler
    {
      this.format := format;
      this.destFolder := destFolder;
      downloadStatus := Success;
      errorMessage := "";
      path := "";
      metadata := map[];
    }

    /**
      `handle(file_path, dest_folder=folder, file_name=fileName)`. `parsed` is what this format's
      parser made of the file, `detect` is `langdetect.detect`, `writeError` what writing raised.
     */
    method Handle(filePath: string, folder: Option<string>, fileName: Option<string>, parsed: Result<Document, string>,
                  detect: string -> Result<string, string>, writeError: Option<string>) returns (r: string)
      requires parsed.Ok? ==> FormatOf(parsed.value) == format
      modifies this
      ensures State() == AfterHandle(old(State()), if Truthy(folder) then folder.value else destFolder,
                                     if Truthy(fileName) then fileName.value else OutputName(filePath),
                                     parsed, detect, writeError)
      ensures r == path
    {
      var target := if Truthy(folder) then folder.value else destFolder;
      var name := if Truthy(fileName) then fileName.value else OutputName(filePath);
      var destPath := JoinPath(target, name);
      match parsed {
        case Raised(message) =>
          downloadStatus := FailedProcessing;
          errorMessage := message;
        case Ok(d) =>
          var text := ExtractedText(d);
          match detect(text) {
            case Raised(message) =>
              downloadStatus := FailedProcessing;
              errorMessage := message;
            case Ok(language) =>
              metadata := MetadataOf(d, language);
              if writeError.Some? {
                downloadStatus := FailedProcessing;
                errorMessage := writeError.value;
              }
          }
      }
      path := destPath;
      r := destPath;
    }
  }

  /** The output of a handler without an explicit name ends in the derived `.txt` name. */
  lemma OutputPathEndsInTextName(folder: string, filePath: string)
    ensures AfterLast(JoinPath(folder, OutputName(filePath)), '/') == OutputName(filePath)
  {
    JoinPathLastComponent(folder, OutputName(filePath));
  }

  /** Pages without line breaks can be told apart again in the text of a PDF or DOCX. */
  lemma LinesArePages(pages: seq<string>)
    requires |pages| >= 1
    requires forall i :: 0 <= i < |pages| ==> '\n' !in pages[i]
    ensures Split(ExtractedText(PdfDocument(pages, None, None)), '\n') == pages
    ensures Split(ExtractedText(DocxDocument(pages, None, None)), '\n') == pages
  {
    SplitJoin(pages, '\n');
  }

  /** Rows without line breaks can be told apart again in the text of a workbook. */
  lemma WorkbookLinesAreRows(sheets: seq<seq<seq<Option<string>>>>)
    requires RowCount(sheets) >= 1
    requires forall i :: 0 <= i < |WorkbookRows(sheets)| ==> '\n' !in WorkbookRows(sheets)[i]
    ensures Split(ExtractedText(XlsxWorkbook(sheets, None, None)), '\n') == WorkbookRows(sheets)
  {
    SplitJoin(WorkbookRows(sheets), '\n');
  }

  /** Cells without spaces can be told apart again in a row's text. */
  lemma RowTextSplitsIntoCells(row: seq<Option<string>>)
    requires PresentCells(row) != []
    requires forall c :: Some(c) in row ==> ' ' !in c
    ensures Split(RowText(row), ' ') == PresentCells(row)
  {
    var cells := PresentCells(row);
    assert forall i :: 0 <= i < |cells| ==> cells[i] in cells;
    SplitJoin(cells, ' ');
  }

  /** The rows of a workbook split into the rows of its sheets, in order. */
  lemma {:induction false} WorkbookRowsAppend(a: seq<seq<seq<Option<string>>>>, b: seq<seq<seq<Option<string>>>>)
    ensures WorkbookRows(a + b) == WorkbookRows(a) + WorkbookRows(b)
  {
    if a == [] {
      assert a + b == b;
    } else {
      assert (a + b)[0] == a[0];
      assert (a + b)[1..] == a[1..] + b;
      WorkbookRowsAppend(a[1..], b);
    }
  }

  /** Every row of every sheet is one line of the workbook text. */
  lemma {:induction false} WorkbookRowAt(sheets: seq<seq<seq<Option<string>>>>, k: nat, i: nat)
    requires k < |sheets| && i < |sheets[k]|
    ensures RowCount(sheets[..k]) + i < |WorkbookRows(sheets)|
    ensures WorkbookRows(sheets)[RowCount(sheets[..k]) + i] == RowText(sheets[k][i])
  {
    if k > 0 {
      WorkbookRowAt(sheets[1..], k - 1, i);
      assert sheets[1..][..k - 1] == sheets[..k][1..];
    }
  }
}
