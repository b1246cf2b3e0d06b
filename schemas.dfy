/**
  The `URLMetadata` record of `schemas.py`: one mutable record per input URL, with seventeen fields,
  all `None` at creation except the identifier, the source URL and the status. Writing
  `raw_file_path` with a non-empty value also stamps `download_timestamp`.
 */
module Schemas {
  import opened Wrappers
  import opened Text
  import opened Urls
  import opened Classify

  /** The four literals the `download_status` annotation allows. */
  datatype Status = Success | FailedDownload | FailedProcessing | SkippedRobots

  /**
    `file_size_bytes` as the downloaders fill it: the text of the `Content-Length` header, or the
    integer `0` (the constructor's value and the default of `headers.get`).
   */
  datatype Size = SizeHeader(text: string) | SizeZero

  /** A value taken from a handler's metadata dictionary: a count or a text. */
  datatype MetaValue = Count(n: nat) | Str(s: string)

  /** The values of all seventeen fields of a record, in declaration order. */
  datatype RecordState = RecordState(
    id: string,
    sourceUrl: Url,
    finalUrl: Option<string>,
    downloadTimestamp: Option<string>,
    downloadStatus: Status,
    errorMessage: Option<string>,
    contentTypeDetected: Option<ContentKind>,
    rawFilePath: Option<string>,
    processedFilePath: Option<string>,
    fileSizeBytes: Option<Size>,
    documentPageCount: Option<MetaValue>,
    detectedLanguage: Option<MetaValue>,
    extractedKeywords: Option<seq<string>>,
    extractedEntities: Option<seq<string>>,
    summary: Option<string>,
    metadataAuthor: Option<MetaValue>,
    metadataCreationDate: Option<MetaValue>)

  /**
    `URLMetadata(source_url=...)`: status `success`, every other field `None`. The identifier is a
    fresh UUID string in the source; here it is given.
   */
  function NewRecord(id: string, sourceUrl: Url): (s: RecordState)
    ensures s.id == id && s.sourceUrl == sourceUrl && s.downloadStatus == Success
    ensures s.finalUrl.None? && s.downloadTimestamp.None? && s.errorMessage.None?
    ensures s.contentTypeDetected.None? && s.rawFilePath.None? && s.processedFilePath.None?
    ensures s.fileSizeBytes.None? && s.documentPageCount.None? && s.detectedLanguage.None?
    ensures s.extractedKeywords.None? && s.extractedEntities.None? && s.summary.None?
    ensures s.metadataAuthor.None? && s.metadataCreationDate.None?
  {
    RecordState(id, sourceUrl, None, None, Success, None, None, None, None, None, None, None, None, None, None, None, None)
  }

  /**
    The record after `record.raw_file_path = path` at clock reading `now`: the path is stored, and
    the timestamp is replaced only when the path is truthy.
   */
  function WithRawFilePath(s: RecordState, path: Option<string>, now: string): (t: RecordState)
    ensures t.rawFilePath == path
    ensures Truthy(path) ==> t.downloadTimestamp == Some(now)
    ensures !Truthy(path) ==> t.downloadTimestamp == s.downloadTimestamp
    ensures t.(rawFilePath := s.rawFilePath, downloadTimestamp := s.downloadTimestamp) == s
  {
    s.(rawFilePath := path, downloadTimestamp := if Truthy(path) then Some(now) else s.downloadTimestamp)
  }

  /** A fresh record has no timestamp, and storing no path or an empty one does not give it one. */
  lemma NoTimestampWithoutPath(id: string, sourceUrl: Url, path: Option<string>, now: string)
    requires !Truthy(path)
    ensures WithRawFilePath(NewRecord(id, sourceUrl), path, now).downloadTimestamp.None?
  {
  }

  /** The mutable record. Every field but `raw_file_path` is written directly. */
  class UrlMetadata {
    var id: string
    var sourceUrl: Url
    var finalUrl: Option<string>
    var downloadTimestamp: Option<string>
    var downloadStatus: Status
    var errorMessage: Option<string>
    var contentTypeDetected: Option<ContentKind>
    var rawFilePath: Option<string>
    var processedFilePath: Option<string>
    var fileSizeBytes: Option<Size>
    var documentPageCount: Option<MetaValue>
    var detectedLanguage: Option<MetaValue>
    var extractedKeywords: Option<seq<string>>
    var extractedEntities: Option<seq<string>>
    var summary: Option<string>
    var metadataAuthor: Option<MetaValue>
    var metadataCreationDate: Option<MetaValue>

    /** The values of the fields. */
    function State(): RecordState
      reads this
    {
      RecordState(id, sourceUrl, finalUrl, downloadTimestamp, downloadStatus, errorMessage,
        contentTypeDetected, rawFilePath, processedFilePath, fileSizeBytes, documentPageCount,
        detectedLanguage, extractedKeywords, extractedEntities, summary, metadataAuthor,
        metadataCreationDate)
    }

    constructor (id: string, sourceUrl: Url)
      ensures State() == NewRecord(id, sourceUrl)
    {
      this.id := id;
      this.sourceUrl := sourceUrl;
      finalUrl := None;
      downloadTimestamp := None;
      downloadStatus := Success;
      errorMessage := None;
      contentTypeDetected := None;
      rawFilePath := None;
      processedFilePath := None;
      fileSizeBytes := None;
      documentPageCount := None;
      detectedLanguage := None;
      extractedKeywords := None;
      extractedEntities := None;
      summary := None;
      metadataAuthor := None;
      metadataCreationDate := None;
    }

    /** `__setattr__("raw_file_path", path)`, with the clock read as `now`. */
    method SetRawFilePath(path: Option<string>, now: string)
      modifies this
      ensures State() == WithRawFilePath(old(State()), path, now)
    {
      rawFilePath := path;
      if Truthy(path) {
        downloadTimestamp := Some(now);
      }
    }
  }

  /** The states of a list of records. */
  function Snapshot(records: seq<UrlMetadata>): (s: seq<RecordState>)
    reads set r | r in records
    ensures |s| == |records|
    ensures forall i :: 0 <= i < |records| ==> s[i] == records[i].State()
  {
    seq(|records|, i reads set r | r in records requires 0 <= i < |records| => records[i].State())
  }

  /** No record appears twice in the list. */
  predicate Distinct(records: seq<UrlMetadata>) {
    forall i, j :: 0 <= i < j < |records| ==> records[i] != records[j]
  }
}
