/**
  `handle_files` of `src/main.py` (and of the earlier `main.py`): one handler per extension, shared
  by all records; the extension of the raw file picks the handler, and the handler's fields are
  copied onto the record. The parsers and `langdetect` are inputs.
 */
module Processing {
  import opened Wrappers
  import opened Text
  import opened Paths
  import opened Schemas
  import opened Handlers
  import opened Pipeline
  import opened Classify
  import opened Robots
  import opened Downloaders
  import opened Runs

  /** The key of the `handlers` dictionary that selects each handler. */
  function FormatExtension(f: Format): string {
    match f
    case Pdf => "pdf"
    case Docx => "docx"
    case Xlsx => "xlsx"
    case Html => "html"
  }

  /** `handlers.get(ext_type)`: the handler registered under an extension, if any. */
  function HandlerKey(ext: string): (f: Option<Format>)
    ensures f.Some? ==> FormatExtension(f.value) == ext
    ensures f.None? ==> forall g: Format :: FormatExtension(g) != ext
  {
    if ext == "pdf" then Some(Pdf)
    else if ext == "docx" then Some(Docx)
    else if ext == "xlsx" then Some(Xlsx)
    else if ext == "html" then Some(Html)
    else None
  }

  /** Every handler is found under its own extension. */
  lemma HandlerKeyOfExtension(f: Format)
    ensures HandlerKey(FormatExtension(f)) == Some(f)
  {
  }

  /** `raw_file_path.split("/")[-1].split(".")[-1]`: the text after the last dot of the last component. */
  function ExtType(path: string): (ext: string)
    ensures '.' !in ext && '/' !in ext
    ensures IsSuffix(ext, path)
    // The longest such suffix: it starts the path or follows a `.` or a `/`.
    ensures |ext| == |path| || path[|path| - |ext| - 1] == '.' || path[|path| - |ext| - 1] == '/'
  {
    var last := AfterLast(path, '/');
    var ext := AfterLast(last, '.');
    ExtTypeShape(path, last, ext);
    ext
  }

  /** The last piece of the last component is a suffix of the path that follows a `.` or a `/`. */
  lemma ExtTypeShape(path: string, last: string, ext: string)
    requires last == AfterLast(path, '/') && ext == AfterLast(last, '.')
    ensures IsSuffix(ext, path)
    ensures |ext| == |path| || path[|path| - |ext| - 1] == '.' || path[|path| - |ext| - 1] == '/'
  {
    var k := |path| - |last|;
    var j := |last| - |ext|;
    assert path[k..] == last;
    assert last[j..] == ext;
    assert path[k + j..] == ext;
    if |ext| < |path| {
      if j > 0 {
        assert last[j - 1] == '.';
        assert path[k + j - 1] == last[j - 1];
      } else {
        assert path[k - 1] == '/';
      }
    }
  }

  /** The folder each handler writes to: pages to one, documents of every format to the other. */
  function ProcessedFolder(f: Format): string {
    if f == Html then PageProcessedFolder else DocumentProcessedFolder
  }

  /** `metadata.get(key)`: the stored value, or `None` when the key is absent. */
  function Lookup(m: Metadata, key: string): (v: Option<MetaValue>)
    ensures key !in m ==> v.None?
    ensures key in m ==> v == m[key]
  {
    if key in m then m[key] else None
  }

  /**
    What the outside world does when a record is handled: `parse(f)` is what the parser of format
    `f` makes of the raw file, and `writeError` what writing the text raised, if anything.
   */
  datatype Handling = Handling(parse: Format -> Result<Document, string>, writeError: Option<string>)

  /** A parser only ever yields a document of its own format. */
  predicate ParsesOwnFormat(h: Handling) {
    forall f: Format :: h.parse(f).Ok? ==> FormatOf(h.parse(f).value) == f
  }

  /** What the outside world does for one record, with every parser yielding its own format. */
  type SoundHandling = h: Handling | ParsesOwnFormat(h) witness Handling(_ => Raised(""), None)

  /** The four handlers of the `handlers` dictionary. */
  datatype HandlerSet = HandlerSet(pdf: HandlerState, docx: HandlerState, xlsx: HandlerState, html: HandlerState) {
    function Get(f: Format): HandlerState {
      match f
      case Pdf => pdf
      case Docx => docx
      case Xlsx => xlsx
      case Html => html
    }

    function Set(f: Format, t: HandlerState): (hs: HandlerSet)
      ensures hs.Get(f) == t
      ensures forall g: Format :: g != f ==> hs.Get(g) == Get(g)
    {
      match f
      case Pdf => this.(pdf := t)
      case Docx => this.(docx := t)
      case Xlsx => this.(xlsx := t)
      case Html => this.(html := t)
    }
  }

  const InitialHandlers: HandlerSet := HandlerSet(InitialHandler, InitialHandler, InitialHandler, InitialHandler)

  /** The four fields every handled record receives from its handler. */
  function CopyCommon(r: RecordState, t: HandlerState): (c: RecordState)
    ensures c.downloadStatus == t.status && c.errorMessage == Some(t.errorMessage)
    ensures c.processedFilePath == Some(t.path) && c.detectedLanguage == Lookup(t.metadata, "language")
    ensures c.(downloadStatus := r.downloadStatus, errorMessage := r.errorMessage, processedFilePath := r.processedFilePath,
               detectedLanguage := r.detectedLanguage) == r
  {
    r.(downloadStatus := t.status, errorMessage := Some(t.errorMessage), processedFilePath := Some(t.path),
       detectedLanguage := Lookup(t.metadata, "language"))
  }

  /** The fields only some formats copy: the page count for PDF and DOCX, author and date for those and XLSX. */
  function CopyFormatFields(r: RecordState, f: Format, m: Metadata): (c: RecordState)
    ensures f == Pdf || f == Docx ==> c.documentPageCount == Lookup(m, "document_page_count")
    ensures f == Xlsx || f == Html ==> c.documentPageCount == r.documentPageCount
    ensures f != Html ==> c.metadataAuthor == Lookup(m, "author") && c.metadataCreationDate == Lookup(m, "creation_date")
    ensures f == Html ==> c == r
    ensures c.(documentPageCount := r.documentPageCount, metadataAuthor := r.metadataAuthor,
               metadataCreationDate := r.metadataCreationDate) == r
  {
    match f
    case Pdf | Docx =>
      r.(documentPageCount := Lookup(m, "document_page_count"), metadataAuthor := Lookup(m, "author"),
         metadataCreationDate := Lookup(m, "creation_date"))
    case Xlsx =>
      r.(metadataAuthor := Lookup(m, "author"), metadataCreationDate := Lookup(m, "creation_date"))
    case Html => r
  }

  /** The record after the loop copies the fields of the handler of format `f` onto it. */
  function CopyHandle(r: RecordState, f: Format, t: HandlerState): (c: RecordState)
    ensures c.downloadStatus == t.status && c.errorMessage == Some(t.errorMessage)
    ensures c.processedFilePath == Some(t.path) && c.detectedLanguage == Lookup(t.metadata, "language")
  {
    var common := CopyCommon(r, t);
    var c := CopyFormatFields(common, f, t.metadata);
    assert c.downloadStatus == common.downloadStatus && c.errorMessage == common.errorMessage;
    assert c.processedFilePath == common.processedFilePath && c.detectedLanguage == common.detectedLanguage;
    c
  }

  /** The message of the `AttributeError` that `None.split` raises. */
  const NoPathMessage: string := "'NoneType' object has no attribute 'split'"

  /** One record together with the handlers shared across records during `handle_files`. */
  datatype HandleStage = HandleStage(record: RecordState, handlers: HandlerSet, raised: Option<string>)

  /**
    A record whose raw file has extension `FormatExtension(f)` is handled by the handler of `f`;
    only that handler changes.
   */
  function HandleKnown(s: HandleStage, path: string, f: Format, h: Handling, detect: string -> Result<string, string>)
    : (t: HandleStage)
    ensures t.raised.None?
    ensures forall g: Format :: g != f ==> t.handlers.Get(g) == s.handlers.Get(g)
    ensures t.record == CopyHandle(s.record, f, t.handlers.Get(f))
  {
    var handled := AfterHandle(s.handlers.Get(f), ProcessedFolder(f), OutputName(path), h.parse(f), detect, h.writeError);
    HandleStage(CopyHandle(s.record, f, handled), s.handlers.Set(f, handled), None)
  }

  /** What handling a record with a registered extension does to the record and to the handlers. */
  lemma HandleKnownEffect(s: HandleStage, path: string, f: Format, h: Handling, detect: string -> Result<string, string>)
    ensures HandleKnown(s, path, f, h, detect).raised.None?
    ensures HandleKnown(s, path, f, h, detect).handlers ==
      s.handlers.Set(f, AfterHandle(s.handlers.Get(f), ProcessedFolder(f), OutputName(path), h.parse(f), detect, h.writeError))
    // The text goes to the format's folder under the raw file's stem,
    ensures HandleKnown(s, path, f, h, detect).record.processedFilePath == Some(JoinPath(ProcessedFolder(f), OutputName(path)))
  {
    var handled := AfterHandle(s.handlers.Get(f), ProcessedFolder(f), OutputName(path), h.parse(f), detect, h.writeError);
    var t := HandleKnown(s, path, f, h, detect);
    assert t.handlers == s.handlers.Set(f, handled);
    assert t.record.processedFilePath == Some(t.handlers.Get(f).path);
  }

  /** Whether a record with a registered extension succeeds, and the language it is given. */
  lemma HandleKnownOutcome(s: HandleStage, path: string, f: Format, h: Handling, detect: string -> Result<string, string>)
    // The record succeeds only if the handler never failed before and every step succeeds now,
    ensures HandleKnown(s, path, f, h, detect).record.downloadStatus == Success <==>
      s.handlers.Get(f).status == Success && h.parse(f).Ok? &&
      detect(ExtractedText(h.parse(f).value)).Ok? && h.writeError.None?
    // and a detected language is recorded.
    ensures h.parse(f).Ok? && detect(ExtractedText(h.parse(f).value)).Ok? ==>
      HandleKnown(s, path, f, h, detect).record.detectedLanguage == Some(Str(detect(ExtractedText(h.parse(f).value)).value))
  {
    var handled := AfterHandle(s.handlers.Get(f), ProcessedFolder(f), OutputName(path), h.parse(f), detect, h.writeError);
    var t := HandleKnown(s, path, f, h, detect);
    assert t.handlers.Get(f) == handled;
    assert t.record.downloadStatus == handled.status;
    assert handled.status == Success <==>
      s.handlers.Get(f).status == Success && h.parse(f).Ok? &&
      detect(ExtractedText(h.parse(f).value)).Ok? && h.writeError.None?;
    assert t.record.detectedLanguage == Lookup(handled.metadata, "language");
    if h.parse(f).Ok? && detect(ExtractedText(h.parse(f).value)).Ok? {
      var language := detect(ExtractedText(h.parse(f).value)).value;
      assert handled.metadata == MetadataOf(h.parse(f).value, language);
      assert handled.metadata["language"] == Some(Str(language));
    }
  }

  /** The body of the `handle_files` loop for one record; `detect` is `langdetect.detect`. */
  function HandleRecord(s: HandleStage, h: Handling, detect: string -> Result<string, string>): HandleStage
    requires s.raised.None?
  {
    if s.record.downloadStatus == FailedDownload then s
    else if s.record.rawFilePath.None? then s.(raised := Some(NoPathMessage))
    else
      var path := s.record.rawFilePath.value;
      match HandlerKey(ExtType(path))
      case None => s.(record := s.record.(downloadStatus := FailedProcessing))
      case Some(f) => HandleKnown(s, path, f, h, detect)
  }

  /** The four outcomes of the loop body for one record. */
  lemma HandleRecordCases(s: HandleStage, h: Handling, detect: string -> Result<string, string>)
    requires s.raised.None?
    // A failed download is skipped.
    ensures s.record.downloadStatus == FailedDownload ==> HandleRecord(s, h, detect) == s
    // Any other record without a raw file makes `split` raise before anything changes.
    ensures s.record.downloadStatus != FailedDownload && s.record.rawFilePath.None? ==>
      HandleRecord(s, h, detect) == s.(raised := Some(NoPathMessage))
    // An extension no handler is registered for marks the record and nothing else.
    ensures s.record.downloadStatus != FailedDownload && s.record.rawFilePath.Some? &&
            HandlerKey(ExtType(s.record.rawFilePath.value)).None? ==>
      HandleRecord(s, h, detect) == s.(record := s.record.(downloadStatus := FailedProcessing))
    // Otherwise the handler registered for the extension handles the raw file.
    ensures s.record.downloadStatus != FailedDownload && s.record.rawFilePath.Some? &&
            HandlerKey(ExtType(s.record.rawFilePath.value)).Some? ==>
      HandleRecord(s, h, detect) ==
        HandleKnown(s, s.record.rawFilePath.value, HandlerKey(ExtType(s.record.rawFilePath.value)).value, h, detect)
  {
  }

  /** The loop never touches the identity, the URLs, the download results or the unused fields of a record. */
  lemma HandleKeepsDownloadFields(s: HandleStage, h: Handling, detect: string -> Result<string, string>)
    requires s.raised.None?
    ensures var t := HandleRecord(s, h, detect);
      t.record.id == s.record.id && t.record.sourceUrl == s.record.sourceUrl &&
      t.record.finalUrl == s.record.finalUrl && t.record.downloadTimestamp == s.record.downloadTimestamp &&
      t.record.contentTypeDetected == s.record.contentTypeDetected &&
      t.record.rawFilePath == s.record.rawFilePath && t.record.fileSizeBytes == s.record.fileSizeBytes &&
      t.record.extractedKeywords == s.record.extractedKeywords &&
      t.record.extractedEntities == s.record.extractedEntities && t.record.summary == s.record.summary
  {
  }

  /** The values the `download_status` annotation of a handler allows. */
  predicate IsHandlerStatus(st: Status) {
    st == Success || st == FailedProcessing
  }

  /** A handler that has failed stays failed, and the handlers only ever write `failed_processing`. */
  lemma HandleRecordKeepsFailures(s: HandleStage, h: Handling, detect: string -> Result<string, string>, g: Format)
    requires s.raised.None?
    ensures s.handlers.Get(g).status != Success ==> HandleRecord(s, h, detect).handlers.Get(g).status != Success
    ensures IsHandlerStatus(s.handlers.Get(g).status) ==>
      IsHandlerStatus(HandleRecord(s, h, detect).handlers.Get(g).status)
  {
    var t := HandleRecord(s, h, detect);
    if s.record.downloadStatus != FailedDownload && s.record.rawFilePath.Some? {
      var path := s.record.rawFilePath.value;
      var key := HandlerKey(ExtType(path));
      if key.Some? {
        var f := key.value;
        var handled := AfterHandle(s.handlers.Get(f), ProcessedFolder(f), OutputName(path), h.parse(f), detect, h.writeError);
        assert t.handlers == s.handlers.Set(f, handled);
        if g == f {
          assert t.handlers.Get(g) == handled;
        } else {
          assert t.handlers.Get(g) == s.handlers.Get(g);
        }
      }
    }
  }

  /** Every handler that reports success holds no message. */
  predicate NoHandlerMessages(handlers: HandlerSet) {
    forall g: Format :: NoHandleMessageOnSuccess(handlers.Get(g))
  }

  /**
    The loop body keeps every handler free of a message while it reports success, and a record it
    then reports as `success` gets the empty message.
   */
  lemma HandleRecordKeepsNoMessage(s: HandleStage, h: Handling, detect: string -> Result<string, string>)
    requires s.raised.None? && NoHandlerMessages(s.handlers)
    ensures NoHandlerMessages(HandleRecord(s, h, detect).handlers)
    ensures HandleRecord(s, h, detect).raised.None? && HandleRecord(s, h, detect).record.downloadStatus == Success ==>
      HandleRecord(s, h, detect).record.errorMessage == Some("")
  {
    if s.record.downloadStatus != FailedDownload && s.record.rawFilePath.Some? {
      var path := s.record.rawFilePath.value;
      var key := HandlerKey(ExtType(path));
      if key.Some? {
        var f := key.value;
        var t := HandleKnown(s, path, f, h, detect);
        AfterHandleKeepsNoMessage(s.handlers.Get(f), ProcessedFolder(f), OutputName(path), h.parse(f), detect, h.writeError);
        HandleKnownEffect(s, path, f, h, detect);
        forall g: Format
          ensures NoHandleMessageOnSuccess(t.handlers.Get(g))
        {
          assert g != f ==> t.handlers.Get(g) == s.handlers.Get(g);
        }
      }
    }
  }

  /** The records and the handlers after some iterations of the `handle_files` loop. */
  datatype HandleRun = HandleRun(records: seq<RecordState>, handlers: HandlerSet, outcome: RunOutcome)

  function StartHandling(records: seq<RecordState>): HandleRun {
    HandleRun(records, InitialHandlers, Completed)
  }

  /**
    Iteration `i` of the loop; once an exception has escaped nothing more happens. (A position past
    the end of the list leaves the run as it is; the loop never reaches one.)
   */
  function HandleStep(run: HandleRun, i: nat, h: Handling, detect: string -> Result<string, string>): (next: HandleRun)
    ensures |next.records| == |run.records|
    ensures run.outcome.Aborted? ==> next == run
  {
    if run.outcome.Aborted? || i >= |run.records| then run
    else
      var t := HandleRecord(HandleStage(run.records[i], run.handlers, None), h, detect);
      HandleRun(run.records[i := t.record], t.handlers, if t.raised.Some? then Aborted(i, t.raised.value) else Completed)
  }

  /** The iterations of the loop, one per record, given what the outside world does for each. */
  function HandleSteps(hs: seq<Handling>, detect: string -> Result<string, string>): (steps: seq<HandleRun -> HandleRun>)
    ensures |steps| == |hs|
  {
    seq(|hs|, i requires 0 <= i < |hs| => (run: HandleRun) => HandleStep(run, i, hs[i], detect))
  }

  /** The first `k` iterations. */
  function HandlesUpTo(start: HandleRun, hs: seq<Handling>, detect: string -> Result<string, string>, k: nat): HandleRun
    requires k <= |hs|
  {
    Iterate(start, HandleSteps(hs, detect), k)
  }

  /** The run after `k + 1` iterations is iteration `k` applied to the run after `k`. */
  lemma HandlesUpToNext(start: HandleRun, hs: seq<Handling>, detect: string -> Result<string, string>, k: nat)
    requires k < |hs|
    ensures HandlesUpTo(start, hs, detect, k + 1) == HandleStep(HandlesUpTo(start, hs, detect, k), k, hs[k], detect)
  {
  }

  /** The same for one iteration of the loop. */
  lemma HandleStepKeepsNoMessage(run: HandleRun, i: nat, h: Handling, detect: string -> Result<string, string>)
    requires NoHandlerMessages(run.handlers)
    ensures NoHandlerMessages(HandleStep(run, i, h, detect).handlers)
    ensures run.outcome.Completed? && i < |run.records| && HandleStep(run, i, h, detect).outcome.Completed? &&
            HandleStep(run, i, h, detect).records[i].downloadStatus == Success ==>
      HandleStep(run, i, h, detect).records[i].errorMessage == Some("")
  {
    if run.outcome.Completed? && i < |run.records| {
      HandleRecordKeepsNoMessage(HandleStage(run.records[i], run.handlers, None), h, detect);
    }
  }

  /**
    A record that `handle_files` reports as `success` carries the empty message: a message left by an
    earlier record reaches only records reported as `failed_processing`.
   */
  lemma SuccessfulHandlingHasNoMessage(records: seq<RecordState>, hs: seq<Handling>,
                                       detect: string -> Result<string, string>, k: nat)
    requires k < |hs| == |records|
    ensures k < |HandlesUpTo(StartHandling(records), hs, detect, k + 1).records|
    ensures var next := HandlesUpTo(StartHandling(records), hs, detect, k + 1);
      next.outcome.Completed? && next.records[k].downloadStatus == Success ==> next.records[k].errorMessage == Some("")
  {
    var start := StartHandling(records);
    var steps := HandleSteps(hs, detect);
    var quiet := (run: HandleRun) => |run.records| == |records| && NoHandlerMessages(run.handlers);
    forall i, run | 0 <= i < k && quiet(run)
      ensures quiet(steps[i](run))
    {
      HandleStepKeepsNoMessage(run, i, hs[i], detect);
    }
    assert NoHandlerMessages(InitialHandlers);
    IterateKeeps(start, steps, quiet, 0, k);
    var before := HandlesUpTo(start, hs, detect, k);
    HandlesUpToNext(start, hs, detect, k);
    HandleStepKeepsNoMessage(before, k, hs[k], detect);
  }

  /** Once an exception has escaped, later iterations change nothing. */
  lemma AbortedHandlingIsFinal(start: HandleRun, hs: seq<Handling>, detect: string -> Result<string, string>, k: nat, m: nat)
    requires k <= m <= |hs|
    requires HandlesUpTo(start, hs, detect, k).outcome.Aborted?
    ensures HandlesUpTo(start, hs, detect, m) == HandlesUpTo(start, hs, detect, k)
  {
    var steps := HandleSteps(hs, detect);
    var aborted := HandlesUpTo(start, hs, detect, k);
    forall i | k <= i < m
      ensures steps[i](aborted) == aborted
    {
    }
    IterateSettles(start, steps, k, m);
  }

  /** Iteration `i` writes only record `i`. */
  lemma HandleStepTouchesOneRecord(run: HandleRun, i: nat, h: Handling, detect: string -> Result<string, string>, j: nat)
    requires j < |run.records| && j != i
    ensures HandleStep(run, i, h, detect).records[j] == run.records[j]
  {
  }

  /** One iteration keeps a handler's failure and writes no status other than `failed_processing`. */
  lemma HandleStepKeepsFailures(run: HandleRun, i: nat, h: Handling, detect: string -> Result<string, string>, g: Format)
    ensures run.handlers.Get(g).status != Success ==> HandleStep(run, i, h, detect).handlers.Get(g).status != Success
    ensures IsHandlerStatus(run.handlers.Get(g).status) ==>
      IsHandlerStatus(HandleStep(run, i, h, detect).handlers.Get(g).status)
  {
    if run.outcome.Completed? && i < |run.records| {
      HandleRecordKeepsFailures(HandleStage(run.records[i], run.handlers, None), h, detect, g);
    }
  }

  /** Every iteration keeps every handler's failure and writes no status other than `failed_processing`. */
  lemma HandleStepsKeepFailures(hs: seq<Handling>, detect: string -> Result<string, string>, g: Format)
    ensures forall i: nat, run: HandleRun :: i < |hs| && run.handlers.Get(g).status != Success ==>
      HandleSteps(hs, detect)[i](run).handlers.Get(g).status != Success
    ensures forall i: nat, run: HandleRun :: i < |hs| && IsHandlerStatus(run.handlers.Get(g).status) ==>
      IsHandlerStatus(HandleSteps(hs, detect)[i](run).handlers.Get(g).status)
  {
    forall i: nat, run: HandleRun | i < |hs|
      ensures run.handlers.Get(g).status != Success ==> HandleSteps(hs, detect)[i](run).handlers.Get(g).status != Success
      ensures IsHandlerStatus(run.handlers.Get(g).status) ==>
        IsHandlerStatus(HandleSteps(hs, detect)[i](run).handlers.Get(g).status)
    {
      HandleStepKeepsFailures(run, i, hs[i], detect, g);
    }
  }

  /** A handler that has failed once reports a failure for every later file: nothing resets its status. */
  lemma HandlerFailureIsSticky(start: HandleRun, hs: seq<Handling>, detect: string -> Result<string, string>,
                               f: Format, k: nat, m: nat)
    requires k <= m <= |hs|
    requires HandlesUpTo(start, hs, detect, k).handlers.Get(f).status != Success
    ensures HandlesUpTo(start, hs, detect, m).handlers.Get(f).status != Success
  {
    HandleStepsKeepFailures(hs, detect, f);
    IterateKeeps(start, HandleSteps(hs, detect), (run: HandleRun) => run.handlers.Get(f).status != Success, k, m);
  }

  /** The handlers' copies of `download_status` can only be set to `failed_processing`. */
  lemma HandlerStatusesOnlyFail(start: HandleRun, hs: seq<Handling>, detect: string -> Result<string, string>,
                                f: Format, k: nat)
    requires k <= |hs|
    requires IsHandlerStatus(start.handlers.Get(f).status)
    ensures IsHandlerStatus(HandlesUpTo(start, hs, detect, k).handlers.Get(f).status)
  {
    HandleStepsKeepFailures(hs, detect, f);
    IterateKeeps(start, HandleSteps(hs, detect), (run: HandleRun) => IsHandlerStatus(run.handlers.Get(f).status), 0, k);
  }

  /** `current_handler.handle(url.raw_file_path)` and the assignments after it. */
  method HandleWith(record: UrlMetadata, handler: ContentHandler, f: Format, h: Handling,
                    detect: string -> Result<string, string>)
    requires ParsesOwnFormat(h)
    requires handler.format == f && handler.destFolder == ProcessedFolder(f)
    requires record.rawFilePath.Some?
    modifies record, handler
    ensures handler.State() == AfterHandle(old(handler.State()), ProcessedFolder(f), OutputName(old(record.rawFilePath.value)),
                                           h.parse(f), detect, h.writeError)
    ensures record.State() == CopyHandle(old(record.State()), f, handler.State())
  {
    var _ := handler.Handle(record.rawFilePath.value, None, None, h.parse(f), detect, h.writeError);
    CopyHandled(record, handler, f);
  }

  /** The four assignments after `current_handler.handle(...)` that every extension makes. */
  method CopyHandled(record: UrlMetadata, handler: ContentHandler, f: Format)
    modifies record
    ensures record.State() == CopyHandle(old(record.State()), f, handler.State())
  {
    ghost var common := CopyCommon(record.State(), handler.State());
    record.downloadStatus := handler.downloadStatus;
    record.errorMessage := Some(handler.errorMessage);
    record.processedFilePath := Some(handler.path);
    record.detectedLanguage := Lookup(handler.metadata, "language");
    assert record.State() == common;
    CopyFormatMetadata(record, f, handler.metadata);
  }

  /** The `if ext_type in ("pdf", "docx")` / `elif ext_type == "xlsx"` assignments. */
  method CopyFormatMetadata(record: UrlMetadata, f: Format, m: Metadata)
    modifies record
    ensures record.State() == CopyFormatFields(old(record.State()), f, m)
  {
    if f == Pdf || f == Docx {
      record.documentPageCount := Lookup(m, "document_page_count");
      record.metadataAuthor := Lookup(m, "author");
      record.metadataCreationDate := Lookup(m, "creation_date");
    } else if f == Xlsx {
      record.metadataAuthor := Lookup(m, "author");
      record.metadataCreationDate := Lookup(m, "creation_date");
    }
  }

  /** The four handler objects of `handle_files`, each of its own format and folder. */
  predicate HandlerObjects(pdf: ContentHandler, docx: ContentHandler, xlsx: ContentHandler, html: ContentHandler) {
    pdf != docx && pdf != xlsx && pdf != html && docx != xlsx && docx != html && xlsx != html &&
    pdf.format == Pdf && docx.format == Docx && xlsx.format == Xlsx && html.format == Html &&
    pdf.destFolder == DocumentProcessedFolder && docx.destFolder == DocumentProcessedFolder &&
    xlsx.destFolder == DocumentProcessedFolder && html.destFolder == PageProcessedFolder
  }

  function Handlers4(pdf: ContentHandler, docx: ContentHandler, xlsx: ContentHandler, html: ContentHandler): HandlerSet
    reads pdf, docx, xlsx, html
  {
    HandlerSet(pdf.State(), docx.State(), xlsx.State(), html.State())
  }

  /** The handler registered for `f` handles the record's raw file; the other three stay as they are. */
  method HandleKnownWith(record: UrlMetadata, pdf: ContentHandler, docx: ContentHandler, xlsx: ContentHandler,
                         html: ContentHandler, f: Format, h: Handling, detect: string -> Result<string, string>)
    requires HandlerObjects(pdf, docx, xlsx, html) && ParsesOwnFormat(h)
    requires record.rawFilePath.Some?
    modifies record, pdf, docx, xlsx, html
    ensures HandleStage(record.State(), Handlers4(pdf, docx, xlsx, html), None) ==
      HandleKnown(HandleStage(old(record.State()), old(Handlers4(pdf, docx, xlsx, html)), None),
                  old(record.rawFilePath.value), f, h, detect)
  {
    match f {
      case Pdf => HandleWith(record, pdf, f, h, detect);
      case Docx => HandleWith(record, docx, f, h, detect);
      case Xlsx => HandleWith(record, xlsx, f, h, detect);
      case Html => HandleWith(record, html, f, h, detect);
    }
  }

  /** The body of the `handle_files` loop for one record. */
  method HandleOne(record: UrlMetadata, pdf: ContentHandler, docx: ContentHandler, xlsx: ContentHandler,
                   html: ContentHandler, h: Handling, detect: string -> Result<string, string>) returns (raised: Option<string>)
    requires HandlerObjects(pdf, docx, xlsx, html) && ParsesOwnFormat(h)
    modifies record, pdf, docx, xlsx, html
    ensures HandleStage(record.State(), Handlers4(pdf, docx, xlsx, html), raised) ==
      HandleRecord(HandleStage(old(record.State()), old(Handlers4(pdf, docx, xlsx, html)), None), h, detect)
  {
    if record.downloadStatus == FailedDownload {
      return None;
    }
    if record.rawFilePath.None? {
      return Some(NoPathMessage);
    }
    HandleWithRawFile(record, pdf, docx, xlsx, html, h, detect);
    raised := None;
  }

  /** The loop body for a record that has a raw file and whose download did not fail. */
  method HandleWithRawFile(record: UrlMetadata, pdf: ContentHandler, docx: ContentHandler, xlsx: ContentHandler,
                           html: ContentHandler, h: Handling, detect: string -> Result<string, string>)
    requires HandlerObjects(pdf, docx, xlsx, html) && ParsesOwnFormat(h)
    requires record.downloadStatus != FailedDownload && record.rawFilePath.Some?
    modifies record, pdf, docx, xlsx, html
    ensures HandleStage(record.State(), Handlers4(pdf, docx, xlsx, html), None) ==
      HandleRecord(HandleStage(old(record.State()), old(Handlers4(pdf, docx, xlsx, html)), None), h, detect)
  {
    ghost var before := HandleStage(record.State(), Handlers4(pdf, docx, xlsx, html), None);
    HandleRecordCases(before, h, detect);
    match HandlerKey(ExtType(record.rawFilePath.value)) {
      case None =>
        record.downloadStatus := FailedProcessing;
        assert record.State() == before.record.(downloadStatus := FailedProcessing);
      case Some(f) =>
        HandleKnownWith(record, pdf, docx, xlsx, html, f, h, detect);
    }
  }

  /** Iteration `i` of the loop on its record and the handlers, stated against the run it continues. */
  method HandleNext(record: UrlMetadata, pdf: ContentHandler, docx: ContentHandler, xlsx: ContentHandler,
                    html: ContentHandler, ghost run: HandleRun, i: nat, h: SoundHandling,
                    detect: string -> Result<string, string>) returns (raised: Option<string>)
    requires HandlerObjects(pdf, docx, xlsx, html)
    requires run.outcome == Completed && i < |run.records|
    requires record.State() == run.records[i] && Handlers4(pdf, docx, xlsx, html) == run.handlers
    modifies record, pdf, docx, xlsx, html
    ensures record.State() == HandleStep(run, i, h, detect).records[i]
    ensures Handlers4(pdf, docx, xlsx, html) == HandleStep(run, i, h, detect).handlers
    ensures HandleStep(run, i, h, detect).outcome == if raised.Some? then Aborted(i, raised.value) else Completed
  {
    raised := HandleOne(record, pdf, docx, xlsx, html, h, detect);
  }

  /** The objects of `handle_files` hold the state of `run`. */
  ghost predicate HoldsHandling(urls: seq<UrlMetadata>, pdf: ContentHandler, docx: ContentHandler, xlsx: ContentHandler,
                                html: ContentHandler, run: HandleRun)
    reads (set r | r in urls), pdf, docx, xlsx, html
  {
    Snapshot(urls) == run.records && Handlers4(pdf, docx, xlsx, html) == run.handlers
  }

  /** Iteration `i` of the `handle_files` loop, over the whole list. */
  method HandleIteration(urls: seq<UrlMetadata>, pdf: ContentHandler, docx: ContentHandler, xlsx: ContentHandler,
                         html: ContentHandler, hs: seq<SoundHandling>, detect: string -> Result<string, string>,
                         ghost start: HandleRun, i: nat) returns (raised: Option<string>)
    requires i < |urls| == |hs| == |start.records| && Distinct(urls)
    requires HandlerObjects(pdf, docx, xlsx, html)
    requires HandlesUpTo(start, hs, detect, i).outcome == Completed
    requires HoldsHandling(urls, pdf, docx, xlsx, html, HandlesUpTo(start, hs, detect, i))
    modifies urls[i], pdf, docx, xlsx, html
    ensures HoldsHandling(urls, pdf, docx, xlsx, html, HandlesUpTo(start, hs, detect, i + 1))
    ensures HandlesUpTo(start, hs, detect, i + 1).outcome == if raised.Some? then Aborted(i, raised.value) else Completed
    ensures raised.Some? ==> HandlesUpTo(start, hs, detect, |urls|) == HandlesUpTo(start, hs, detect, i + 1)
  {
    ghost var run := HandlesUpTo(start, hs, detect, i);
    ghost var next := HandleStep(run, i, hs[i], detect);
    HandlesUpToNext(start, hs, detect, i);
    assert urls[i].State() == run.records[i];
    raised := HandleNext(urls[i], pdf, docx, xlsx, html, run, i, hs[i], detect);
    forall j | 0 <= j < |urls| && j != i
      ensures urls[j].State() == next.records[j]
    {
      HandleStepTouchesOneRecord(run, i, hs[i], detect, j);
    }
    assert Snapshot(urls) == next.records;
    if raised.Some? {
      AbortedHandlingIsFinal(start, hs, detect, i + 1, |urls|);
    }
  }

  /** The loop of `handle_files`, from the state `start` held by the objects. */
  method HandleLoop(urls: seq<UrlMetadata>, pdf: ContentHandler, docx: ContentHandler, xlsx: ContentHandler,
                    html: ContentHandler, hs: seq<SoundHandling>, detect: string -> Result<string, string>,
                    ghost start: HandleRun) returns (outcome: RunOutcome)
    requires |urls| == |hs| == |start.records| && Distinct(urls) && start.outcome == Completed
    requires HandlerObjects(pdf, docx, xlsx, html)
    requires HoldsHandling(urls, pdf, docx, xlsx, html, start)
    modifies (set r | r in urls), pdf, docx, xlsx, html
    ensures var run := HandlesUpTo(start, hs, detect, |urls|);
      Snapshot(urls) == run.records && outcome == run.outcome
  {
    for i := 0 to |urls|
      invariant HandlesUpTo(start, hs, detect, i).outcome == Completed
      invariant HoldsHandling(urls, pdf, docx, xlsx, html, HandlesUpTo(start, hs, detect, i))
    {
      var raised := HandleIteration(urls, pdf, docx, xlsx, html, hs, detect, start, i);
      if raised.Some? {
        ghost var run := HandlesUpTo(start, hs, detect, i + 1);
        assert Snapshot(urls) == run.records && run.outcome == Aborted(i, raised.value);
        return Aborted(i, raised.value);
      }
    }
    outcome := Completed;
  }

  /**
    `handle_files(urls)`: a handler per extension, shared by all records. `hs[i]` is what the
    parsers and the file system do for `urls[i]`.
   */
  method HandleFiles(urls: seq<UrlMetadata>, hs: seq<SoundHandling>, detect: string -> Result<string, string>)
    returns (outcome: RunOutcome)
    requires |hs| == |urls| && Distinct(urls)
    modifies set r | r in urls
    ensures var run := HandlesUpTo(StartHandling(old(Snapshot(urls))), hs, detect, |urls|);
      Snapshot(urls) == run.records && outcome == run.outcome
  {
    ghost var start := StartHandling(Snapshot(urls));
    var pdf := new ContentHandler(Pdf, DocumentProcessedFolder);
    var docx := new ContentHandler(Docx, DocumentProcessedFolder);
    var xlsx := new ContentHandler(Xlsx, DocumentProcessedFolder);
    var html := new ContentHandler(Html, PageProcessedFolder);
    outcome := HandleLoop(urls, pdf, docx, xlsx, html, hs, detect, start);
  }

  /** A record whose download failed leaves `handle_files` exactly as it entered. */
  lemma FailedDownloadsAreSkipped(start: HandleRun, hs: seq<Handling>, detect: string -> Result<string, string>,
                                  k: nat, j: nat)
    requires k <= |hs| && j < |start.records|
    requires start.records[j].downloadStatus == FailedDownload
    ensures j < |HandlesUpTo(start, hs, detect, k).records|
    ensures HandlesUpTo(start, hs, detect, k).records[j] == start.records[j]
  {
    var steps := HandleSteps(hs, detect);
    var untouched := (run: HandleRun) => j < |run.records| && run.records[j] == start.records[j];
    forall i: nat, run: HandleRun | i < k && untouched(run)
      ensures untouched(steps[i](run))
    {
      if i != j {
        HandleStepTouchesOneRecord(run, i, hs[i], detect, j);
      }
    }
    IterateKeeps(start, steps, untouched, 0, k);
  }

  /**
    A record that the robots check marked `skipped_robots` is still handled, and a handler that has
    not failed before reports `success` for it when parsing, detection and writing succeed.
   */
  lemma SkippedRobotsRecordIsProcessed(s: HandleStage, h: Handling, detect: string -> Result<string, string>, f: Format)
    requires s.raised.None? && s.record.downloadStatus == SkippedRobots && s.record.rawFilePath.Some?
    requires HandlerKey(ExtType(s.record.rawFilePath.value)) == Some(f)
    requires s.handlers.Get(f).status == Success && h.parse(f).Ok? && detect(ExtractedText(h.parse(f).value)).Ok?
    requires h.writeError.None?
    ensures HandleRecord(s, h, detect).record.downloadStatus == Success
  {
  }

  /**
    The raw file of a downloaded record is found again by `handle_files`: a stored name
    `id + "." + x`, with neither part holding `/` or `.`, has the extension `x` and the
    processed name `id + ".txt"`, in whichever folder it was stored.
   */
  lemma DownloadedFileFindsHandler(folder: string, id: string, x: string)
    requires id != "" && '/' !in id && '.' !in id && '/' !in x && '.' !in x
    ensures ExtType(JoinPath(folder, id + "." + x)) == x
    ensures OutputName(JoinPath(folder, id + "." + x)) == id + ".txt"
  {
    var name := id + "." + x;
    assert name == id + ['.'] + x;
    assert '/' !in name by {
      assert forall c :: c in name ==> c in id || c == '.' || c in x;
    }
    JoinPathLastComponent(folder, name);
    AfterLastOfAppend(id, x, '.');
    BeforeFirstOfPrepend(id, x, '.');
  }

  /**
    A file that a downloader stored for a record under its identifier and a guessed extension `.x`
    reaches the handler registered for `x`, which writes `id.txt`.
   */
  lemma DownloadedRecordReachesHandler(s: DownloaderState, kind: ContentKind, id: string, x: string,
                                       allowed: Result<bool, string>, transfer: Transfer, g: Format)
    requires id != "" && '/' !in id && '.' !in id && '/' !in x && '.' !in x
    requires allowed.Ok? && HandlerKey(x) == Some(g)
    ensures var o := AfterDownload(s, VariantFor(kind), RawFolder(kind), id + "." + x, allowed, transfer);
      HandlerKey(ExtType(o.state.filePath)) == Some(g) && OutputName(o.state.filePath) == id + ".txt"
  {
    DownloadedFileFindsHandler(RawFolder(kind), id, x);
  }
}
