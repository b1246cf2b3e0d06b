/**
  `extract_urls_from_csv_file`: every column of every line of the input that parses as an `http`,
  `https` or `ftp` URL with a network location becomes a new record. `src/main.py` reads the file
  line by line, strips newlines and double quotes from both ends and splits on the separator; the
  earlier `main.py` takes the rows of `csv.reader`. `urlparse` and the fresh identifiers are inputs.
 */
module Extraction {
  import opened Wrappers
  import opened Text
  import opened Urls
  import opened Schemas

  /** The schemes a column must have to be kept. */
  const AcceptedSchemes: set<string> := {"http", "https", "ftp"}

  /** `parsed_url.scheme in ("http", "https", "ftp") and parsed_url.netloc`. */
  predicate Accepted(parsed: Url) {
    parsed.scheme in AcceptedSchemes && parsed.netloc != ""
  }

  /** `row.strip("\n\"").split(sep)`. */
  function LineColumns(line: string, sep: char): (columns: seq<string>)
    ensures |columns| >= 1
    ensures forall i :: 0 <= i < |columns| ==> sep !in columns[i]
  {
    Split(Strip(line, {'\n', '"'}), sep)
  }

  /** Joining the columns with the separator gives back the line without its surrounding newlines and quotes. */
  lemma LineColumnsRejoin(line: string, sep: char)
    ensures Join(LineColumns(line, sep), [sep]) == Strip(line, {'\n', '"'})
  {
    JoinSplit(Strip(line, {'\n', '"'}), sep);
  }

  /** The columns of all lines, line after line. */
  function FileColumns(lines: seq<string>, sep: char): seq<string> {
    if lines == [] then [] else FileColumns(lines[..|lines| - 1], sep) + LineColumns(lines[|lines| - 1], sep)
  }

  /** The columns of all rows, row after row. */
  function RowColumns(rows: seq<seq<string>>): seq<string> {
    if rows == [] then [] else RowColumns(rows[..|rows| - 1]) + rows[|rows| - 1]
  }

  /** The columns that become records, in order. */
  function AcceptedColumns(columns: seq<string>, parse: string -> Url): (kept: seq<string>)
    ensures |kept| <= |columns|
  {
    if columns == [] then []
    else
      var last := columns[|columns| - 1];
      assert columns == columns[..|columns| - 1] + [last];
      AcceptedColumns(columns[..|columns| - 1], parse) + if Accepted(parse(last)) then [last] else []
  }

  /** The columns kept are exactly those that parse to an accepted URL. */
  lemma {:induction false} AcceptedColumnsMembers(columns: seq<string>, parse: string -> Url)
    ensures forall c :: c in AcceptedColumns(columns, parse) <==> c in columns && Accepted(parse(c))
  {
    if columns != [] {
      var init := columns[..|columns| - 1];
      AcceptedColumnsMembers(init, parse);
      assert columns == init + [columns[|columns| - 1]];
    }
  }

  /** Accepting one more column appends it when it is accepted. */
  lemma AcceptedColumnsSnoc(columns: seq<string>, c: string, parse: string -> Url)
    ensures AcceptedColumns(columns + [c], parse) ==
      AcceptedColumns(columns, parse) + if Accepted(parse(c)) then [c] else []
  {
    assert (columns + [c])[..|columns|] == columns;
  }

  /** The records of `urls` are, in order, new records for the URLs parsed from `columns`. */
  predicate RecordsFor(urls: seq<UrlMetadata>, columns: seq<string>, parse: string -> Url, newId: nat -> string)
    reads set r | r in urls
  {
    |urls| == |columns| && Distinct(urls) &&
    forall i :: 0 <= i < |urls| ==> urls[i].State() == NewRecord(newId(i), parse(columns[i]))
  }

  /** One column: a new record is appended when the column parses to an accepted URL. */
  method AppendIfAccepted(urls: seq<UrlMetadata>, ghost done: seq<string>, column: string,
                          parse: string -> Url, newId: nat -> string) returns (result: seq<UrlMetadata>)
    requires RecordsFor(urls, AcceptedColumns(done, parse), parse, newId)
    ensures RecordsFor(result, AcceptedColumns(done + [column], parse), parse, newId)
    ensures |urls| <= |result| && result[..|urls|] == urls
    ensures forall i :: |urls| <= i < |result| ==> fresh(result[i])
  {
    AcceptedColumnsSnoc(done, column, parse);
    result := urls;
    var parsed := parse(column);
    if Accepted(parsed) {
      var record := new UrlMetadata(newId(|urls|), parsed);
      assert forall i :: 0 <= i < |urls| ==> urls[i] != record;
      result := urls + [record];
    }
  }

  /**
    The inner loop over the columns of one line or row: a record for each accepted column, appended
    to the records made so far.
   */
  method AppendAccepted(urls: seq<UrlMetadata>, ghost done: seq<string>, columns: seq<string>,
                        parse: string -> Url, newId: nat -> string) returns (result: seq<UrlMetadata>)
    requires RecordsFor(urls, AcceptedColumns(done, parse), parse, newId)
    ensures RecordsFor(result, AcceptedColumns(done + columns, parse), parse, newId)
    ensures |urls| <= |result| && result[..|urls|] == urls
    ensures forall i :: |urls| <= i < |result| ==> fresh(result[i])
  {
    result := urls;
    ghost var seen := done;
    for j := 0 to |columns|
      invariant seen == done + columns[..j]
      invariant RecordsFor(result, AcceptedColumns(seen, parse), parse, newId)
      invariant |urls| <= |result| && result[..|urls|] == urls
      invariant forall i :: |urls| <= i < |result| ==> fresh(result[i])
    {
      ghost var previous := result;
      result := AppendIfAccepted(result, seen, columns[j], parse, newId);
      assert result[..|urls|] == previous[..|urls|];
      seen := seen + [columns[j]];
    }
    assert columns[..|columns|] == columns;
  }

  /**
    `extract_urls_from_csv_file(file_name, sep)` of `src/main.py`, where `file` holds the lines
    `readline` returns (each with its line break), or is `None` when the file does not exist.
   */
  method ExtractUrlsFromCsvFile(file: Option<seq<string>>, sep: char, parse: string -> Url, newId: nat -> string)
    returns (urls: seq<UrlMetadata>)
    requires file.Some? ==> forall k :: 0 <= k < |file.value| ==> file.value[k] != ""
    ensures file.None? ==> urls == []
    ensures file.Some? ==> RecordsFor(urls, AcceptedColumns(FileColumns(file.value, sep), parse), parse, newId)
    ensures forall i :: 0 <= i < |urls| ==> fresh(urls[i])
  {
    urls := [];
    if file.None? {
      return;
    }
    var lines := file.value;
    var k := 0;
    while k < |lines| && lines[k] != ""
      invariant 0 <= k <= |lines|
      invariant RecordsFor(urls, AcceptedColumns(FileColumns(lines[..k], sep), parse), parse, newId)
      invariant forall i :: 0 <= i < |urls| ==> fresh(urls[i])
    {
      assert lines[..k + 1][..k] == lines[..k];
      urls := AppendAccepted(urls, FileColumns(lines[..k], sep), LineColumns(lines[k], sep), parse, newId);
      k := k + 1;
    }
    assert lines[..|lines|] == lines;
  }

  /**
    `extract_urls_from_csv_file(file_name)` of `main.py`, where `file` holds the rows `csv.reader`
    yields, or is `None` when the file does not exist; then `open` raises `FileNotFoundError`.
   */
  method ExtractUrlsFromCsvRows(file: Option<seq<seq<string>>>, parse: string -> Url, newId: nat -> string)
    returns (r: Result<seq<UrlMetadata>, string>)
    ensures file.None? <==> r.Raised?
    ensures r.Ok? ==> RecordsFor(r.value, AcceptedColumns(RowColumns(file.value), parse), parse, newId)
    ensures r.Ok? ==> forall i :: 0 <= i < |r.value| ==> fresh(r.value[i])
  {
    if file.None? {
      return Raised("No such file or directory");
    }
    var rows := file.value;
    var urls: seq<UrlMetadata> := [];
    for k := 0 to |rows|
      invariant RecordsFor(urls, AcceptedColumns(RowColumns(rows[..k]), parse), parse, newId)
      invariant forall i :: 0 <= i < |urls| ==> fresh(urls[i])
    {
      assert rows[..k + 1][..k] == rows[..k];
      urls := AppendAccepted(urls, RowColumns(rows[..k]), rows[k], parse, newId);
    }
    assert rows[..|rows|] == rows;
    r := Ok(urls);
  }

  /** A column is in the records exactly when it parses to an accepted URL. */
  lemma {:induction false} ColumnsOfLines(lines: seq<string>, sep: char, k: nat, column: string)
    requires k < |lines|
    requires column in LineColumns(lines[k], sep)
    ensures column in FileColumns(lines, sep)
  {
    if k < |lines| - 1 {
      ColumnsOfLines(lines[..|lines| - 1], sep, k, column);
    }
  }
}
