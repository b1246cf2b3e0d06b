/**
  The stages of `src/main.py` (and of the earlier `main.py`) that change the records in place:
  tracking-parameter stripping, downloading and handling. Each loop is proved against a step
  function on the records' values, so that the consequences of the shared downloader and handler
  instances can be stated over a whole run.
 */
module Pipeline {
  import opened Wrappers
  import opened Text
  import opened Urls
  import opened Paths
  import opened Normalize
  import opened Classify
  import opened Schemas
  import opened Robots
  import opened Downloaders
  import opened Handlers
  import opened Runs

  /** `clear_urls_of_garbage(urls)` with the given tracking patterns. */
  method ClearUrlsOfGarbage(urls: seq<UrlMetadata>, patterns: seq<KeyPattern>)
    modifies set r | r in urls
    ensures forall i :: 0 <= i < |urls| ==>
      urls[i].State() == old(urls[i].State()).(sourceUrl := CleanUrl(patterns, old(urls[i].sourceUrl)))
  {
    for k := 0 to |urls|
      invariant forall i :: 0 <= i < |urls| ==>
        urls[i].State() == old(urls[i].State()).(sourceUrl :=
          if urls[i] in urls[..k] then CleanUrl(patterns, old(urls[i].sourceUrl)) else old(urls[i].sourceUrl))
    {
      var record := urls[k];
      if record in urls[..k] {
        CleanUrlIdempotent(patterns, old(record.sourceUrl));
      }
      record.sourceUrl := CleanUrl(patterns, record.sourceUrl);
      assert urls[..k + 1] == urls[..k] + [record];
    }
    assert urls[..|urls|] == urls;
  }

  /** The folders of `src/main.py` (written inline in `main.py`). */
  const DocumentRawFolder: string := "raw_downloads/documents/"
  const PageRawFolder: string := "raw_downloads/pages/"
  const DocumentProcessedFolder: string := "processed_data/documents/"
  const PageProcessedFolder: string := "processed_data/pages/"

  function RawFolder(kind: ContentKind): string {
    if kind == Document then DocumentRawFolder else PageRawFolder
  }

  /** The `downloaders` dictionary: a requests-based downloader per kind. */
  function VariantFor(kind: ContentKind): Variant {
    if kind == Document then RequestsDocument else RequestsPage
  }

  /**
    What the outside world does for one record during `download_files`: the HEAD probe, the
    `mimetypes` guess for its URL, what reading robots.txt would do, what `_download` does, and the
    clock reading when the raw path is stored.
   */
  datatype Fetch = Fetch(probe: Probe, guessed: Option<string>, read: ReadOutcome, transfer: Transfer, now: string)

  /** A stage ran to the end, or an exception escaped while it handled the record at `index`. */
  datatype RunOutcome = Completed | Aborted(index: nat, error: string)

  /** One record together with the state shared across records during `download_files`. */
  datatype DownloadStage = DownloadStage(record: RecordState, document: DownloaderState, page: DownloaderState,
                                         cache: Cache, raised: Option<string>)

  function DownloaderOf(s: DownloadStage, kind: ContentKind): DownloaderState {
    if kind == Document then s.document else s.page
  }

  /** The record after `download_files` copies the downloader's fields onto it. */
  function CopyDownload(r: RecordState, d: DownloaderState, now: string): (c: RecordState)
    ensures c.finalUrl == Some(d.url) && c.downloadStatus == d.status && c.errorMessage == Some(d.errorMessage)
    ensures c.rawFilePath == Some(d.filePath) && c.fileSizeBytes == Some(d.size)
    // Assigning the path stamps the record only when the path is non-empty.
    ensures d.filePath != "" ==> c.downloadTimestamp == Some(now)
    ensures d.filePath == "" ==> c.downloadTimestamp == r.downloadTimestamp
  {
    WithRawFilePath(r.(finalUrl := Some(d.url), downloadStatus := d.status, errorMessage := Some(d.errorMessage)),
                    Some(d.filePath), now).(fileSizeBytes := Some(d.size))
  }

  /** A classified record, its kind's downloader and the robots cache after the download attempt. */
  datatype Attempt = Attempt(record: RecordState, downloader: DownloaderState, cache: Cache, raised: Option<string>)

  /**
    The `else` branch of the `download_files` loop for a record classified as `kind` with extension
    `ext`, handled by the downloader in state `d`.
   */
  function AttemptDownload(r: RecordState, kind: ContentKind, ext: string, d: DownloaderState, cache: Cache, f: Fetch): (a: Attempt)
    requires ext != ""
    ensures a.record.contentTypeDetected == Some(kind)
    ensures a.raised.Some? ==> a.record == r.(contentTypeDetected := Some(kind)) && a.downloader == d && a.cache == cache
    ensures a.raised.None? ==>
      // The raw file is named after the record's id and the extension, in the kind's folder,
      a.record.rawFilePath == Some(JoinPath(RawFolder(kind), r.id + ext)) &&
      a.record.downloadTimestamp == Some(f.now) &&
      // every field of the downloader is copied,
      a.record.downloadStatus == a.downloader.status &&
      a.record.errorMessage == Some(a.downloader.errorMessage) &&
      a.record.finalUrl == Some(a.downloader.url) &&
      a.record.fileSizeBytes == Some(a.downloader.size) &&
      // and the other fields are kept.
      a.record.(finalUrl := r.finalUrl, downloadStatus := r.downloadStatus, errorMessage := r.errorMessage,
                contentTypeDetected := r.contentTypeDetected, rawFilePath := r.rawFilePath,
                downloadTimestamp := r.downloadTimestamp, fileSizeBytes := r.fileSizeBytes) == r
    // A downloader that has failed once reports a failure for every later record.
    ensures d.status != Success ==> a.downloader.status != Success
  {
    var marked := r.(contentTypeDetected := Some(kind));
    var o := AfterDownload(d, VariantFor(kind), RawFolder(kind), r.id + ext,
                           Decision(cache, r.sourceUrl, DefaultUserAgent, f.read), f.transfer);
    match o.returned
    case Raised(error) => Attempt(marked, o.state, cache, Some(error))
    case Ok(_) => Attempt(CopyDownload(marked, o.state, f.now), o.state, CacheAfter(cache, r.sourceUrl, f.read), None)
  }

  /** The body of the `download_files` loop for one record. */
  function DownloadRecord(s: DownloadStage, f: Fetch, table: map<string, string>): (t: DownloadStage)
    requires s.raised.None?
    // An unclassifiable URL gets `failed_download` and nothing else changes.
    ensures ContentType(f.probe, f.guessed, table) == Ok(Unclassified) ==>
      t == s.(record := s.record.(downloadStatus := FailedDownload))
    // A failed media-type lookup escapes before anything changes.
    ensures ContentType(f.probe, f.guessed, table).Raised? ==>
      t == s.(raised := Some(ContentType(f.probe, f.guessed, table).error))
    // The shared downloaders never recover from a failure,
    ensures s.document.status != Success ==> t.document.status != Success
    ensures s.page.status != Success ==> t.page.status != Success
    // so every later record of the same kind that gets through is reported as failed.
    ensures ContentType(f.probe, f.guessed, table).Ok? && ContentType(f.probe, f.guessed, table).value.Classified? &&
            DownloaderOf(s, ContentType(f.probe, f.guessed, table).value.kind).status != Success && t.raised.None? ==>
      t.record.downloadStatus != Success
  {
    match ContentType(f.probe, f.guessed, table)
    case Raised(error) => s.(raised := Some(error))
    case Ok(Unclassified) => s.(record := s.record.(downloadStatus := FailedDownload))
    case Ok(Classified(kind, ext)) =>
      var a := AttemptDownload(s.record, kind, ext, DownloaderOf(s, kind), s.cache, f);
      var shared := if kind == Document then s.(document := a.downloader) else s.(page := a.downloader);
      shared.(record := a.record, cache := a.cache, raised := a.raised)
  }

  /** The records and the shared state after some iterations of the `download_files` loop. */
  datatype DownloadRun = DownloadRun(records: seq<RecordState>, document: DownloaderState, page: DownloaderState,
                                     cache: Cache, outcome: RunOutcome)

  /** Before the loop: two new downloaders and the robots cache as it is. */
  function StartDownloads(records: seq<RecordState>, cache: Cache): DownloadRun {
    DownloadRun(records, InitialDownloader, InitialDownloader, cache, Completed)
  }

  /**
    Iteration `i` of the loop; once an exception has escaped nothing more happens. (A position past
    the end of the list leaves the run as it is; the loop never reaches one.)
   */
  function DownloadStep(run: DownloadRun, i: nat, f: Fetch, table: map<string, string>): (next: DownloadRun)
    ensures |next.records| == |run.records|
    ensures run.outcome.Aborted? ==> next == run
  {
    if run.outcome.Aborted? || i >= |run.records| then run
    else
      var t := DownloadRecord(DownloadStage(run.records[i], run.document, run.page, run.cache, None), f, table);
      DownloadRun(run.records[i := t.record], t.document, t.page, t.cache,
                  if t.raised.Some? then Aborted(i, t.raised.value) else Completed)
  }

  /** The iterations of the loop, one per record, given what the outside world does for each. */
  function DownloadSteps(fetches: seq<Fetch>, table: map<string, string>): (steps: seq<DownloadRun -> DownloadRun>)
    ensures |steps| == |fetches|
  {
    seq(|fetches|, i requires 0 <= i < |fetches| => (run: DownloadRun) => DownloadStep(run, i, fetches[i], table))
  }

  /** The first `k` iterations. */
  function DownloadsUpTo(start: DownloadRun, fetches: seq<Fetch>, table: map<string, string>, k: nat): DownloadRun
    requires k <= |fetches|
  {
    Iterate(start, DownloadSteps(fetches, table), k)
  }

  /** The run after `k + 1` iterations is iteration `k` applied to the run after `k`. */
  lemma DownloadsUpToNext(start: DownloadRun, fetches: seq<Fetch>, table: map<string, string>, k: nat)
    requires k < |fetches|
    ensures DownloadsUpTo(start, fetches, table, k + 1) ==
      DownloadStep(DownloadsUpTo(start, fetches, table, k), k, fetches[k], table)
  {
  }

  /** Iteration `i` writes only record `i`. */
  lemma StepTouchesOneRecord(run: DownloadRun, i: nat, f: Fetch, table: map<string, string>, j: nat)
    requires j < |run.records| && j != i
    ensures DownloadStep(run, i, f, table).records[j] == run.records[j]
  {
  }

  /** Records the loop has not reached yet are untouched. */
  lemma UnreachedRecordsUntouched(start: DownloadRun, fetches: seq<Fetch>, table: map<string, string>,
                                  k: nat, j: nat)
    requires k <= |fetches| && k <= j < |start.records|
    ensures j < |DownloadsUpTo(start, fetches, table, k).records|
    ensures DownloadsUpTo(start, fetches, table, k).records[j] == start.records[j]
  {
    var steps := DownloadSteps(fetches, table);
    var untouched := (run: DownloadRun) => j < |run.records| && run.records[j] == start.records[j];
    forall i, run | 0 <= i < k && untouched(run)
      ensures untouched(steps[i](run))
    {
      StepTouchesOneRecord(run, i, fetches[i], table, j);
    }
    IterateKeeps(start, steps, untouched, 0, k);
  }

  /** One iteration never resets a downloader that has failed. */
  lemma DownloadStepKeepsFailures(run: DownloadRun, i: nat, f: Fetch, table: map<string, string>)
    ensures run.document.status != Success ==> DownloadStep(run, i, f, table).document.status != Success
    ensures run.page.status != Success ==> DownloadStep(run, i, f, table).page.status != Success
  {
  }

  /**
    A downloader that has failed once keeps reporting failure for the rest of the run: the status
    is shared by every later record of its kind.
   */
  lemma DownloaderFailureIsSticky(start: DownloadRun, fetches: seq<Fetch>, table: map<string, string>, k: nat, m: nat)
    requires k <= m <= |fetches|
    ensures DownloadsUpTo(start, fetches, table, k).document.status != Success ==>
      DownloadsUpTo(start, fetches, table, m).document.status != Success
    ensures DownloadsUpTo(start, fetches, table, k).page.status != Success ==>
      DownloadsUpTo(start, fetches, table, m).page.status != Success
  {
    var steps := DownloadSteps(fetches, table);
    var documentFailed := (run: DownloadRun) => run.document.status != Success;
    var pageFailed := (run: DownloadRun) => run.page.status != Success;
    forall i, run | 0 <= i < m
      ensures documentFailed(run) ==> documentFailed(steps[i](run))
      ensures pageFailed(run) ==> pageFailed(steps[i](run))
    {
      DownloadStepKeepsFailures(run, i, fetches[i], table);
    }
    if documentFailed(DownloadsUpTo(start, fetches, table, k)) {
      IterateKeeps(start, steps, documentFailed, k, m);
    }
    if pageFailed(DownloadsUpTo(start, fetches, table, k)) {
      IterateKeeps(start, steps, pageFailed, k, m);
    }
  }

  /**
    The loop body keeps both downloaders free of a message while they report success, and a record
    it then reports as `success` gets the empty message.
   */
  lemma DownloadRecordKeepsNoMessage(s: DownloadStage, f: Fetch, table: map<string, string>)
    requires s.raised.None? && NoDownloadMessageOnSuccess(s.document) && NoDownloadMessageOnSuccess(s.page)
    ensures NoDownloadMessageOnSuccess(DownloadRecord(s, f, table).document)
    ensures NoDownloadMessageOnSuccess(DownloadRecord(s, f, table).page)
    ensures DownloadRecord(s, f, table).raised.None? && DownloadRecord(s, f, table).record.downloadStatus == Success ==>
      DownloadRecord(s, f, table).record.errorMessage == Some("")
  {
    match ContentType(f.probe, f.guessed, table)
    case Raised(_) =>
    case Ok(Unclassified) =>
    case Ok(Classified(kind, ext)) =>
      var d := DownloaderOf(s, kind);
      AfterDownloadKeepsNoMessage(d, VariantFor(kind), RawFolder(kind), s.record.id + ext,
                                  Decision(s.cache, s.record.sourceUrl, DefaultUserAgent, f.read), f.transfer);
      assert NoDownloadMessageOnSuccess(AttemptDownload(s.record, kind, ext, d, s.cache, f).downloader);
  }

  /** The same for one iteration of the loop. */
  lemma DownloadStepKeepsNoMessage(run: DownloadRun, i: nat, f: Fetch, table: map<string, string>)
    requires NoDownloadMessageOnSuccess(run.document) && NoDownloadMessageOnSuccess(run.page)
    ensures NoDownloadMessageOnSuccess(DownloadStep(run, i, f, table).document)
    ensures NoDownloadMessageOnSuccess(DownloadStep(run, i, f, table).page)
    ensures run.outcome.Completed? && i < |run.records| && DownloadStep(run, i, f, table).outcome.Completed? &&
            DownloadStep(run, i, f, table).records[i].downloadStatus == Success ==>
      DownloadStep(run, i, f, table).records[i].errorMessage == Some("")
  {
    if run.outcome.Completed? && i < |run.records| {
      DownloadRecordKeepsNoMessage(DownloadStage(run.records[i], run.document, run.page, run.cache, None), f, table);
    }
  }

  /**
    A record that `download_files` reports as `success` carries the empty message: a message left by
    an earlier record reaches only records reported as `failed_download` or `skipped_robots`.
   */
  lemma SuccessfulDownloadHasNoMessage(records: seq<RecordState>, cache: Cache, fetches: seq<Fetch>,
                                       table: map<string, string>, k: nat)
    requires k < |fetches| == |records|
    ensures k < |DownloadsUpTo(StartDownloads(records, cache), fetches, table, k + 1).records|
    ensures var next := DownloadsUpTo(StartDownloads(records, cache), fetches, table, k + 1);
      next.outcome.Completed? && next.records[k].downloadStatus == Success ==> next.records[k].errorMessage == Some("")
  {
    var start := StartDownloads(records, cache);
    var steps := DownloadSteps(fetches, table);
    var quiet := (run: DownloadRun) =>
      |run.records| == |records| && NoDownloadMessageOnSuccess(run.document) && NoDownloadMessageOnSuccess(run.page);
    forall i, run | 0 <= i < k && quiet(run)
      ensures quiet(steps[i](run))
    {
      DownloadStepKeepsNoMessage(run, i, fetches[i], table);
    }
    IterateKeeps(start, steps, quiet, 0, k);
    var before := DownloadsUpTo(start, fetches, table, k);
    DownloadsUpToNext(start, fetches, table, k);
    DownloadStepKeepsNoMessage(before, k, fetches[k], table);
  }

  /** Once an exception has escaped, later iterations change nothing. */
  lemma AbortedRunIsFinal(start: DownloadRun, fetches: seq<Fetch>, table: map<string, string>, k: nat, m: nat)
    requires k <= m <= |fetches|
    requires DownloadsUpTo(start, fetches, table, k).outcome.Aborted?
    ensures DownloadsUpTo(start, fetches, table, m) == DownloadsUpTo(start, fetches, table, k)
  {
    var steps := DownloadSteps(fetches, table);
    var aborted := DownloadsUpTo(start, fetches, table, k);
    forall i | k <= i < m
      ensures steps[i](aborted) == aborted
    {
    }
    IterateSettles(start, steps, k, m);
  }

  /** The download branch of the loop, with the downloader of the record's kind. */
  method DownloadWith(record: UrlMetadata, current: ContentDownloader, robots: RobotsCache, kind: ContentKind,
                      ext: string, f: Fetch) returns (raised: Option<string>)
    requires ext != ""
    requires current.variant == VariantFor(kind) && current.userAgent == DefaultUserAgent
    requires current.destFolder == RawFolder(kind)
    modifies record, current, robots
    ensures Attempt(record.State(), current.State(), robots.entries, raised) ==
      AttemptDownload(old(record.State()), kind, ext, old(current.State()), old(robots.entries), f)
  {
    var fileName := record.id + ext;
    assert FileNameFor(Render(record.sourceUrl), Some(fileName)) == fileName;
    ghost var o := AfterDownload(current.State(), VariantFor(kind), RawFolder(kind), fileName,
                                 Decision(robots.entries, record.sourceUrl, DefaultUserAgent, f.read), f.transfer);
    ghost var cacheAfter := CacheAfter(robots.entries, record.sourceUrl, f.read);
    ghost var marked := record.State().(contentTypeDetected := Some(kind));
    record.contentTypeDetected := Some(kind);
    var returned := current.Download(record.sourceUrl, None, Some(fileName), robots, f.read, f.transfer);
    assert current.State() == o.state && returned == o.returned;
    assert record.State() == marked;
    if returned.Raised? {
      return Some(returned.error);
    }
    assert robots.entries == cacheAfter;
    CopyFields(record, current, f.now);
    raised := None;
  }

  /** The five assignments after `current_downloader.download(...)`. */
  method CopyFields(record: UrlMetadata, current: ContentDownloader, now: string)
    modifies record
    ensures record.State() == CopyDownload(old(record.State()), current.State(), now)
  {
    record.finalUrl := Some(current.url);
    record.downloadStatus := current.downloadStatus;
    record.errorMessage := Some(current.errorMessage);
    record.SetRawFilePath(Some(current.filePath), now);
    record.fileSizeBytes := Some(current.fileSizeBytes);
  }

  /** The two downloader objects of `download_files`: distinct, with the default user agent and their kind's folder. */
  predicate DownloaderObjects(document: ContentDownloader, page: ContentDownloader) {
    document != page &&
    document.variant == VariantFor(Document) && document.userAgent == DefaultUserAgent && document.destFolder == RawFolder(Document) &&
    page.variant == VariantFor(Page) && page.userAgent == DefaultUserAgent && page.destFolder == RawFolder(Page)
  }

  /** `download_files` for one record, with the two downloaders and the robots cache it shares. */
  method DownloadOne(record: UrlMetadata, document: ContentDownloader, page: ContentDownloader, robots: RobotsCache,
                     table: map<string, string>, f: Fetch) returns (raised: Option<string>)
    requires DownloaderObjects(document, page)
    modifies record, document, page, robots
    ensures DownloadStage(record.State(), document.State(), page.State(), robots.entries, raised) ==
      DownloadRecord(DownloadStage(old(record.State()), old(document.State()), old(page.State()), old(robots.entries), None), f, table)
  {
    var classification := ContentType(f.probe, f.guessed, table);
    if classification.Raised? {
      return Some(classification.error);
    }
    match classification.value {
      case Unclassified =>
        record.downloadStatus := FailedDownload;
        raised := None;
      case Classified(kind, ext) =>
        if kind == Document {
          raised := DownloadWith(record, document, robots, kind, ext, f);
        } else {
          raised := DownloadWith(record, page, robots, kind, ext, f);
        }
    }
  }

  /** Iteration `i` of the `download_files` loop, on the objects that hold the state of `run`. */
  method DownloadNext(record: UrlMetadata, document: ContentDownloader, page: ContentDownloader, robots: RobotsCache,
                      table: map<string, string>, ghost run: DownloadRun, i: nat, f: Fetch) returns (raised: Option<string>)
    requires i < |run.records| && run.outcome == Completed
    requires record.State() == run.records[i] && document.State() == run.document && page.State() == run.page
    requires robots.entries == run.cache
    requires DownloaderObjects(document, page)
    modifies record, document, page, robots
    ensures var next := DownloadStep(run, i, f, table);
      record.State() == next.records[i] && document.State() == next.document && page.State() == next.page &&
      robots.entries == next.cache && next.outcome == if raised.Some? then Aborted(i, raised.value) else Completed
  {
    raised := DownloadOne(record, document, page, robots, table, f);
  }

  /** The objects of `download_files` hold the state of `run`. */
  ghost predicate HoldsDownloads(urls: seq<UrlMetadata>, document: ContentDownloader, page: ContentDownloader,
                           robots: RobotsCache, run: DownloadRun)
    reads (set r | r in urls), document, page, robots
  {
    Snapshot(urls) == run.records && robots.entries == run.cache &&
    document.State() == run.document && page.State() == run.page
  }

  /** Iteration `i` of the `download_files` loop, over the whole list. */
  method DownloadIteration(urls: seq<UrlMetadata>, document: ContentDownloader, page: ContentDownloader,
                           robots: RobotsCache, table: map<string, string>, fetches: seq<Fetch>,
                           ghost start: DownloadRun, i: nat) returns (raised: Option<string>)
    requires i < |urls| == |fetches| == |start.records| && Distinct(urls)
    requires DownloaderObjects(document, page)
    requires DownloadsUpTo(start, fetches, table, i).outcome == Completed
    requires HoldsDownloads(urls, document, page, robots, DownloadsUpTo(start, fetches, table, i))
    modifies urls[i], document, page, robots
    ensures HoldsDownloads(urls, document, page, robots, DownloadsUpTo(start, fetches, table, i + 1))
    ensures DownloadsUpTo(start, fetches, table, i + 1).outcome == if raised.Some? then Aborted(i, raised.value) else Completed
    ensures raised.Some? ==> DownloadsUpTo(start, fetches, table, |urls|) == DownloadsUpTo(start, fetches, table, i + 1)
  {
    ghost var run := DownloadsUpTo(start, fetches, table, i);
    ghost var next := DownloadStep(run, i, fetches[i], table);
    DownloadsUpToNext(start, fetches, table, i);
    assert urls[i].State() == run.records[i];
    label Before:
    raised := DownloadNext(urls[i], document, page, robots, table, run, i, fetches[i]);
    forall j | 0 <= j < |urls| && j != i
      ensures urls[j].State() == next.records[j]
    {
      StepTouchesOneRecord(run, i, fetches[i], table, j);
    }
    assert Snapshot(urls) == next.records;
    if raised.Some? {
      AbortedRunIsFinal(start, fetches, table, i + 1, |urls|);
    }
  }

  /** The loop of `download_files`, from the state `start` held by the objects. */
  method DownloadLoop(urls: seq<UrlMetadata>, document: ContentDownloader, page: ContentDownloader, robots: RobotsCache,
                      table: map<string, string>, fetches: seq<Fetch>, ghost start: DownloadRun) returns (outcome: RunOutcome)
    requires |urls| == |fetches| == |start.records| && Distinct(urls) && start.outcome == Completed
    requires DownloaderObjects(document, page)
    requires HoldsDownloads(urls, document, page, robots, start)
    modifies (set r | r in urls), document, page, robots
    ensures var run := DownloadsUpTo(start, fetches, table, |urls|);
      Snapshot(urls) == run.records && robots.entries == run.cache && outcome == run.outcome
  {
    for i := 0 to |urls|
      invariant DownloadsUpTo(start, fetches, table, i).outcome == Completed
      invariant HoldsDownloads(urls, document, page, robots, DownloadsUpTo(start, fetches, table, i))
    {
      var raised := DownloadIteration(urls, document, page, robots, table, fetches, start, i);
      if raised.Some? {
        return Aborted(i, raised.value);
      }
    }
    outcome := Completed;
  }

  /**
    `download_files(urls)`: a downloader per kind, shared by all records, and the robots cache
    shared with every other call. `fetches[i]` is what the outside world does for `urls[i]`.
   */
  method DownloadFiles(urls: seq<UrlMetadata>, robots: RobotsCache, table: map<string, string>, fetches: seq<Fetch>)
    returns (outcome: RunOutcome)
    requires |fetches| == |urls| && Distinct(urls)
    modifies (set r | r in urls), robots
    ensures var run := DownloadsUpTo(StartDownloads(old(Snapshot(urls)), old(robots.entries)), fetches, table, |urls|);
      Snapshot(urls) == run.records && robots.entries == run.cache && outcome == run.outcome
  {
    ghost var start := StartDownloads(Snapshot(urls), robots.entries);
    var document := new ContentDownloader(RequestsDocument, DefaultUserAgent, DocumentRawFolder);
    var page := new ContentDownloader(RequestsPage, DefaultUserAgent, PageRawFolder);
    outcome := DownloadLoop(urls, document, page, robots, table, fetches, start);
  }
}
