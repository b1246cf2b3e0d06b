/**
  URLs as `urllib.parse.urlparse` splits them, the text `urlunparse` puts back together, and the
  origin key that scopes a robots.txt policy.
 */
module Urls {
  import opened Text

  /**
    The six components of `urlparse`. The query is kept as the key/value pairs it holds, already
    percent-decoded, in the order they appear, pairs with a blank value included.
   */
  datatype Url = Url(
    scheme: string,
    netloc: string,
    path: string,
    params: string,
    query: seq<(string, string)>,
    fragment: string)

  /** The schemes for which `urlunparse` writes `//` even when the network location is empty. */
  const UsesNetloc: set<string> := {
    "", "ftp", "http", "gopher", "nntp", "telnet", "imap", "wais", "file", "mms", "https",
    "shttp", "snews", "prospero", "rtsp", "rtsps", "rtspu", "rsync", "svn", "svn+ssh", "sftp",
    "nfs", "git", "git+ssh", "ws", "wss", "itms-services"
  }

  /** `urlencode(pairs, doseq=True)` without its percent-encoding: `k=v` pairs joined by `&`. */
  function EncodeQuery(pairs: seq<(string, string)>): (q: string)
    ensures pairs == [] <==> q == []
  {
    if pairs == [] then ""
    else if |pairs| == 1 then pairs[0].0 + "=" + pairs[0].1
    else pairs[0].0 + "=" + pairs[0].1 + "&" + EncodeQuery(pairs[1..])
  }

  /** The text of one query pair: `k=v`. */
  function PairText(pair: (string, string)): string {
    pair.0 + "=" + pair.1
  }

  /** A key or value that needs no percent-encoding to stay apart from its neighbours. */
  predicate PlainQueryText(x: string) {
    '&' !in x && '=' !in x
  }

  /** A `k=v` piece with plain key and value splits back into the key and the value. */
  lemma PairTextSplits(pair: (string, string))
    requires PlainQueryText(pair.0) && PlainQueryText(pair.1)
    ensures Split(PairText(pair), '&') == [PairText(pair)]
    ensures Split(PairText(pair), '=') == [pair.0, pair.1]
  {
    assert PairText(pair) == pair.0 + ['='] + pair.1;
    SplitAroundSeparator(pair.0, pair.1, '=');
    SplitWithoutSeparator(pair.0, '=');
    SplitWithoutSeparator(pair.1, '=');
    SplitWithoutSeparator(PairText(pair), '&');
  }

  /**
    The encoded query decodes again: for plain keys and values, splitting at `&` gives one piece
    per pair, in order, and splitting a piece at `=` gives that pair's key and value.
   */
  lemma {:induction false} EncodeQueryDecodes(pairs: seq<(string, string)>)
    requires forall i :: 0 <= i < |pairs| ==> PlainQueryText(pairs[i].0) && PlainQueryText(pairs[i].1)
    ensures pairs != [] ==> |Split(EncodeQuery(pairs), '&')| == |pairs|
    ensures pairs != [] ==> forall i :: 0 <= i < |pairs| ==>
      Split(Split(EncodeQuery(pairs), '&')[i], '=') == [pairs[i].0, pairs[i].1]
  {
    if pairs != [] {
      EncodeQueryPieces(pairs);
      forall i | 0 <= i < |pairs| {
        PairTextSplits(pairs[i]);
      }
    }
  }

  /** For plain keys and values the `&`-pieces of the encoded query are the pairs' texts. */
  lemma {:induction false} EncodeQueryPieces(pairs: seq<(string, string)>)
    requires pairs != []
    requires forall i :: 0 <= i < |pairs| ==> PlainQueryText(pairs[i].0) && PlainQueryText(pairs[i].1)
    ensures Split(EncodeQuery(pairs), '&') == seq(|pairs|, i requires 0 <= i < |pairs| => PairText(pairs[i]))
  {
    PairTextSplits(pairs[0]);
    if |pairs| > 1 {
      var rest := pairs[1..];
      EncodeQueryPieces(rest);
      assert EncodeQuery(pairs) == PairText(pairs[0]) + ['&'] + EncodeQuery(rest);
      SplitAroundSeparator(PairText(pairs[0]), EncodeQuery(rest), '&');
    }
  }

  /** The path, with `;params` when there are parameters. */
  function PathWithParams(u: Url): string {
    if u.params != "" then u.path + ";" + u.params else u.path
  }

  /** Whether `urlunparse` writes `//` and the network location in front of the path. */
  predicate WritesNetloc(u: Url) {
    u.netloc != "" || (u.scheme != "" && u.scheme in UsesNetloc && !("//" <= PathWithParams(u)))
  }

  /** The part between the scheme and the query: `//netloc` where it is written, then the path. */
  function Hierarchy(u: Url): (h: string)
    ensures u.netloc != "" ==> "//" + u.netloc <= h
  {
    var path := PathWithParams(u);
    if WritesNetloc(u) then
      var h := "//" + u.netloc + (if path != "" && path[0] != '/' then "/" + path else path);
      assert h[..|"//" + u.netloc|] == "//" + u.netloc;
      h
    else path
  }

  /** `scheme:` when there is a scheme. */
  function SchemePart(u: Url): string {
    if u.scheme != "" then u.scheme + ":" else ""
  }

  /** `?query` when the encoded query is non-empty. */
  function QueryPart(u: Url): string {
    var query := EncodeQuery(u.query);
    if query != "" then "?" + query else ""
  }

  /** `#fragment` when there is a fragment. */
  function FragmentPart(u: Url): string {
    if u.fragment != "" then "#" + u.fragment else ""
  }

  /** `a` starts `a + b + c`. */
  lemma PrefixOfAppend(a: string, b: string, c: string)
    ensures a <= a + b + c
  {
    assert (a + b + c)[..|a|] == a;
  }

  /** `urlunparse`: the text of a URL. */
  function Render(u: Url): string {
    SchemePart(u) + Hierarchy(u) + QueryPart(u) + FragmentPart(u)
  }

  /** The rendered text starts with the scheme and its colon, then `//` and the network location. */
  lemma RenderStart(u: Url)
    ensures u.scheme != "" ==> u.scheme + ":" <= Render(u)
    ensures u.netloc != "" ==> SchemePart(u) + "//" + u.netloc <= Render(u)
  {
    var s, h, tail := SchemePart(u), Hierarchy(u), QueryPart(u) + FragmentPart(u);
    assert Render(u) == s + h + tail;
    PrefixOfAppend(s, h, tail);
    if u.netloc != "" {
      var n := "//" + u.netloc;
      var rest := h[|n|..];
      assert h == n + rest;
      assert s + h + tail == (s + n) + rest + tail;
      PrefixOfAppend(s + n, rest, tail);
    }
  }

  /** The rendered text ends with `#` and the fragment, or else with `?` and the encoded query. */
  lemma RenderEnd(u: Url)
    ensures u.fragment != "" ==> IsSuffix("#" + u.fragment, Render(u))
    ensures u.query != [] && u.fragment == "" ==> IsSuffix("?" + EncodeQuery(u.query), Render(u))
  {
    var head := SchemePart(u) + Hierarchy(u);
    assert Render(u) == head + QueryPart(u) + FragmentPart(u);
    if u.fragment != "" {
      var x := "#" + u.fragment;
      var w := head + QueryPart(u);
      assert Render(u) == w + x;
      assert (w + x)[|w|..] == x;
    } else if u.query != [] {
      var x := "?" + EncodeQuery(u.query);
      assert QueryPart(u) == x;
      assert Render(u) == head + x;
      assert (head + x)[|head|..] == x;
    }
  }

  /** The key of the robots.txt cache: `f"{scheme}://{netloc}"`. */
  function OriginKey(u: Url): string {
    u.scheme + "://" + u.netloc
  }

  /** Where the policy of an origin is read from: the origin key followed by `/robots.txt`. */
  function RobotsUrl(u: Url): (r: string)
    ensures OriginKey(u) <= r
    ensures IsSuffix("/robots.txt", r)
    ensures |r| == |OriginKey(u)| + |"/robots.txt"|
  {
    OriginKey(u) + "/robots.txt"
  }

  /**
    `urlparse` never puts a colon in a scheme; for such URLs two keys are equal exactly when the
    schemes and the network locations are, so paths, queries and fragments share one cache entry.
   */
  lemma SameOrigin(u: Url, v: Url)
    requires ':' !in u.scheme && ':' !in v.scheme
    ensures OriginKey(u) == OriginKey(v) <==> (u.scheme == v.scheme && u.netloc == v.netloc)
  {
    var ku, kv := OriginKey(u), OriginKey(v);
    assert ku == u.scheme + [':'] + ("//" + u.netloc);
    assert kv == v.scheme + [':'] + ("//" + v.netloc);
    BeforeFirstOfPrepend(u.scheme, "//" + u.netloc, ':');
    BeforeFirstOfPrepend(v.scheme, "//" + v.netloc, ':');
    if ku == kv {
      assert u.netloc == ku[|u.scheme| + 3..] == kv[|v.scheme| + 3..] == v.netloc;
    }
  }
}
