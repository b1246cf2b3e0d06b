/**
  The downloader template of `src/downloaders.py`: `ContentDownloader.download` does the checks
  shared by every variant and calls the variant's `_download`. One instance serves every URL of
  its kind, and its fields keep their values from one call to the next.
 */
module Downloaders {
  import opened Wrappers
  import opened Text
  import opened Urls
  import opened Paths
  import opened Schemas
  import opened Robots

  /** The four `_download` implementations. */
  datatype Variant = RequestsDocument | RequestsPage | PlaywrightPage | WgetDocument

  /** The `user_agent` default of the constructor. */
  const DefaultUserAgent: string :=
    "Mozilla/5.0 (Windows NT 10.0; Win64; x64) AppleWebKit/537.36 (KHTML, like Gecko) Chrome/114.0.5735.199 Safari/537.36"

  /**
    What `_download` did. `Delivered`: the response was accepted and the file written.
    `FailedBeforeResponse`: the request, `raise_for_status`, the page navigation or the `wget`
    process raised before any field was written. `FailedAfterResponse`: the response was accepted
    and its URL and size recorded, then writing the file raised.
   */
  datatype Transfer =
    | Delivered(finalUrl: string, size: Size)
    | FailedBeforeResponse(message: string)
    | FailedAfterResponse(finalUrl: string, size: Size, message: string)

  /** Whether the transfer got as far as a response. */
  predicate HasResponse(t: Transfer) {
    t.Delivered? || t.FailedAfterResponse?
  }

  /** The variants whose `_download` copies the response's URL and `Content-Length` (all but `wget`). */
  predicate RecordsResponse(v: Variant) {
    v != WgetDocument
  }

  /** The values of the five mutable fields. */
  datatype DownloaderState = DownloaderState(url: string, status: Status, errorMessage: string, filePath: string, size: Size)

  /** The values `__init__` gives them. */
  const InitialDownloader: DownloaderState := DownloaderState("", Success, "", "", SizeZero)

  /** `file_name or url.split("/")[-1]`, for the text `url` of the URL. */
  function FileNameFor(url: string, fileName: Option<string>): (name: string)
    ensures Truthy(fileName) ==> name == fileName.value
    // Otherwise the whole last segment of the URL: all of it, or everything after its last `/`.
    ensures !Truthy(fileName) ==> IsLastPiece(name, url, '/')
  {
    if Truthy(fileName) then fileName.value else AfterLast(url, '/')
  }

  /** The message of the `ValueError` raised for an empty file name. */
  const EmptyNameMessage: string := "The url cannot be empty"

  /** The fields after `download`, and what it returned or raised. */
  datatype DownloadOutcome = DownloadOutcome(state: DownloaderState, returned: Result<string, string>)

  /**
    `download` on a downloader in state `s`, for file `name` in `folder`, when the robots check
    gave `allowed` and `_download` did `transfer`.
   */
  function AfterDownload(s: DownloaderState, variant: Variant, folder: string, name: string,
                         allowed: Result<bool, string>, transfer: Transfer): (o: DownloadOutcome)
    // The status is never set back to success.
    ensures s.status != Success ==> o.state.status != Success
    ensures name != "" && allowed.Ok? ==>
      (o.state.status == Success <==> s.status == Success && allowed.value && transfer.Delivered?)
    // An empty name fails before the robots check and the transfer: only the status changes.
    ensures name == "" ==> o.returned == Raised(EmptyNameMessage) && o.state == s.(status := FailedDownload)
    // An exception from the robots check escapes with nothing changed.
    ensures name != "" && allowed.Raised? ==> o == DownloadOutcome(s, Raised(allowed.error))
    ensures name != "" && allowed.Ok? ==>
      // The path is stored and returned whether or not the transfer succeeded.
      o.returned == Ok(JoinPath(folder, name)) && o.state.filePath == JoinPath(folder, name) &&
      // A failed transfer wins over a robots refusal; a refusal does not stop the transfer.
      (transfer.Delivered? ==> o.state.status == if allowed.value then s.status else SkippedRobots) &&
      (!transfer.Delivered? ==> o.state.status == FailedDownload && o.state.errorMessage == transfer.message) &&
      // The message of an earlier failure survives a successful transfer.
      (transfer.Delivered? ==> o.state.errorMessage == s.errorMessage) &&
      // URL and size come from a response, and only the variants that read one record them.
      (HasResponse(transfer) && RecordsResponse(variant) ==>
         o.state.url == transfer.finalUrl && o.state.size == transfer.size) &&
      (!HasResponse(transfer) || !RecordsResponse(variant) ==> o.state.url == s.url && o.state.size == s.size)
  {
    if name == "" then DownloadOutcome(s.(status := FailedDownload), Raised(EmptyNameMessage))
    else if allowed.Raised? then DownloadOutcome(s, Raised(allowed.error))
    else
      var checked := if allowed.value then s else s.(status := SkippedRobots);
      var path := JoinPath(folder, name);
      DownloadOutcome(AfterTransfer(checked, variant, transfer).(filePath := path), Ok(path))
  }

  /**
    Only the `except` branches write a message, and each of them also writes a failure status that
    is never set back: a downloader that reports success holds no message.
   */
  predicate NoDownloadMessageOnSuccess(s: DownloaderState) {
    s.status == Success ==> s.errorMessage == ""
  }

  /** `download` keeps a downloader that reports success free of a message. */
  lemma AfterDownloadKeepsNoMessage(s: DownloaderState, variant: Variant, folder: string, name: string,
                                    allowed: Result<bool, string>, transfer: Transfer)
    requires NoDownloadMessageOnSuccess(s)
    ensures NoDownloadMessageOnSuccess(AfterDownload(s, variant, folder, name, allowed, transfer).state)
  {
  }

  /** The fields after the `try` around `_download`: response data and, on an exception, the failure. */
  function AfterTransfer(s: DownloaderState, variant: Variant, transfer: Transfer): (t: DownloaderState)
    ensures t.status == Success <==> s.status == Success && transfer.Delivered?
    ensures !transfer.Delivered? ==> t.errorMessage == transfer.message
    ensures transfer.Delivered? ==> t.errorMessage == s.errorMessage
    ensures HasResponse(transfer) && RecordsResponse(variant) ==> t.url == transfer.finalUrl && t.size == transfer.size
    ensures !(HasResponse(transfer) && RecordsResponse(variant)) ==> t.url == s.url && t.size == s.size
    ensures t.filePath == s.filePath
  {
    var recorded := if HasResponse(transfer) && RecordsResponse(variant) then s.(url := transfer.finalUrl, size := transfer.size) else s;
    if transfer.Delivered? then recorded else recorded.(status := FailedDownload, errorMessage := transfer.message)
  }

  /** A downloader: one `_download` variant, a user agent and a default folder, and five mutable fields. */
  class ContentDownloader {
    const variant: Variant
    const userAgent: string
    const destFolder: string
    var url: string
    var downloadStatus: Status
    var errorMessage: string
    var filePath: string
    var fileSizeBytes: Size

    function State(): DownloaderState
      reads this
    {
      DownloaderState(url, downloadStatus, errorMessage, filePath, fileSizeBytes)
    }

    constructor (variant: Variant, userAgent: string, destFolder: string)
      ensures this.variant == variant && this.userAgent == userAgent && this.destFolder == destFolder
      ensures State() == InitialDownloader
    {
      this.variant := variant;
      this.userAgent := userAgent;
      this.destFolder := destFolder;
      url := "";
      downloadStatus := Success;
      errorMessage := "";
      filePath := "";
      fileSizeBytes := SizeZero;
    }

    /**
      `download(url, dest_folder=folder, file_name=fileName)`. The robots check goes through the
      shared cache with `read` as what reading robots.txt would do; `transfer` is what `_download`
      did.
     */
    method Download(u: Url, folder: Option<string>, fileName: Option<string>, robots: RobotsCache,
                    read: ReadOutcome, transfer: Transfer) returns (r: Result<string, string>)
      modifies this, robots
      ensures var o := AfterDownload(old(State()), variant, if Truthy(folder) then folder.value else destFolder,
                                     FileNameFor(Render(u), fileName), Decision(old(robots.entries), u, userAgent, read), transfer);
        State() == o.state && r == o.returned
      ensures FileNameFor(Render(u), fileName) == "" ==> robots.entries == old(robots.entries)
      ensures FileNameFor(Render(u), fileName) != "" ==> robots.entries == CacheAfter(old(robots.entries), u, read)
    {
      var target := if Truthy(folder) then folder.value else destFolder;
      var name := if Truthy(fileName) then fileName.value else AfterLast(Render(u), '/');
      if name == "" {
        downloadStatus := FailedDownload;
        return Raised(EmptyNameMessage);
      }
      r := CheckAndFetch(u, target, name, robots, read, transfer);
    }

    /** The part of `download` after the file name is known: the robots check, then `_download`. */
    method CheckAndFetch(u: Url, target: string, name: string, robots: RobotsCache, read: ReadOutcome, transfer: Transfer)
      returns (r: Result<string, string>)
      requires name != ""
      modifies this, robots
      ensures var o := AfterDownload(old(State()), variant, target, name, Decision(old(robots.entries), u, userAgent, read), transfer);
        State() == o.state && r == o.returned
      ensures robots.entries == CacheAfter(old(robots.entries), u, read)
    {
      var allowed := robots.CanFetch(u, userAgent, read);
      if allowed.Raised? {
        return Raised(allowed.error);
      }
      if !allowed.value {
        downloadStatus := SkippedRobots;
      }
      var path := JoinPath(target, name);
      StoreTransfer(transfer);
      filePath := path;
      r := Ok(path);
    }

    /** `_download` inside its `try`: what the variant records of the response, and the failure if one was raised. */
    method StoreTransfer(transfer: Transfer)
      modifies this
      ensures State() == AfterTransfer(old(State()), variant, transfer)
    {
      match transfer {
        case Delivered(finalUrl, size) =>
          if RecordsResponse(variant) {
            url := finalUrl;
            fileSizeBytes := size;
          }
        case FailedBeforeResponse(message) =>
          downloadStatus := FailedDownload;
          errorMessage := message;
        case FailedAfterResponse(finalUrl, size, message) =>
          if RecordsResponse(variant) {
            url := finalUrl;
            fileSizeBytes := size;
          }
          downloadStatus := FailedDownload;
          errorMessage := message;
      }
    }
  }

  /** A downloader given a plain file name stores a path whose last component is that name. */
  lemma StoredPathEndsInName(s: DownloaderState, variant: Variant, folder: string, name: string,
                             allowed: Result<bool, string>, transfer: Transfer)
    requires IsPlainName(name) && allowed.Ok?
    ensures AfterLast(AfterDownload(s, variant, folder, name, allowed, transfer).state.filePath, '/') == name
  {
    JoinPathLastComponent(folder, name);
  }
}
