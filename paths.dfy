/** `pathlib.PurePosixPath` joining: `str(Path(folder) / name)`. */
module Paths {
  import opened Text

  /** The pieces of a path that `pathlib` keeps: empty pieces and `.` are dropped. */
  function KeptSegments(parts: seq<string>): (kept: seq<string>)
    ensures forall i :: 0 <= i < |kept| ==> kept[i] in parts && kept[i] != "" && kept[i] != "."
  {
    if parts == [] then []
    else if parts[0] == "" || parts[0] == "." then KeptSegments(parts[1..])
    else [parts[0]] + KeptSegments(parts[1..])
  }

  function Segments(s: string): seq<string> {
    KeptSegments(Split(s, '/'))
  }

  predicate IsAbsolute(s: string) {
    |s| > 0 && s[0] == '/'
  }

  /** A file name `pathlib` keeps as one last component: non-empty, no `/`, not `.`. */
  predicate IsPlainName(name: string) {
    name != "" && name != "." && '/' !in name
  }

  /** `str(Path(folder) / name)`: an absolute `name` replaces the folder; `.` stands for no path. */
  function JoinPath(folder: string, name: string): (path: string)
    ensures path != ""
  {
    var segments := if IsAbsolute(name) then Segments(name) else Segments(folder) + Segments(name);
    if IsAbsolute(name) || IsAbsolute(folder) then "/" + Join(segments, "/")
    else if segments == [] then "."
    else Join(segments, "/")
  }

  lemma {:induction false} JoinAppend(parts: seq<string>, last: string, sep: string)
    ensures Join(parts + [last], sep) == if parts == [] then last else Join(parts, sep) + sep + last
  {
    if |parts| > 1 {
      JoinAppend(parts[1..], last, sep);
      assert (parts + [last])[1..] == parts[1..] + [last];
    } else if |parts| == 1 {
      assert (parts + [last])[1..] == [last];
    }
  }

  /** A `/`-join ending in a plain name, with or without a leading `/`, ends in that name. */
  lemma JoinedEndsInName(segments: seq<string>, name: string)
    requires IsPlainName(name)
    ensures AfterLast(Join(segments + [name], "/"), '/') == name
    ensures AfterLast("/" + Join(segments + [name], "/"), '/') == name
  {
    JoinAppend(segments, name, "/");
    var joined := Join(segments + [name], "/");
    if segments == [] {
      AfterLastWithoutSeparator(name, '/');
      assert "/" + joined == "" + ['/'] + name;
      AfterLastOfAppend("", name, '/');
    } else {
      var prefix := Join(segments, "/");
      assert joined == prefix + ['/'] + name;
      AfterLastOfAppend(prefix, name, '/');
      assert "/" + joined == ("/" + prefix) + ['/'] + name;
      AfterLastOfAppend("/" + prefix, name, '/');
    }
  }

  /** Joining a plain file name onto any folder: the name is the last component of the result. */
  lemma JoinPathLastComponent(folder: string, name: string)
    requires IsPlainName(name)
    ensures AfterLast(JoinPath(folder, name), '/') == name
  {
    SplitWithoutSeparator(name, '/');
    assert KeptSegments([name]) == [name] + KeptSegments([]);
    assert Segments(name) == [name];
    assert !IsAbsolute(name) by { assert name[0] in name; }
    var joined := Join(Segments(folder) + [name], "/");
    assert JoinPath(folder, name) == if IsAbsolute(folder) then "/" + joined else joined;
    JoinedEndsInName(Segments(folder), name);
  }
}
