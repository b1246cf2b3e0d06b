/**
  Tracking-parameter stripping: the URL's query is parsed into key/value pairs, the pairs whose key
  matches one of the tracking patterns are dropped, and the query is rebuilt from the rest. Two
  pattern sets exist: `src/main.py` adds `_debug$` to the three patterns of the older `main.py`.
 */
module Normalize {
  import opened Text
  import opened Urls

  /** One alternative of the tracking regular expression, anchored at the start or at the end. */
  datatype KeyPattern = StartsWith(prefix: string) | EndsWith(suffix: string)

  /** `(^utm_|clid$|^cache_|_debug$)`, the expression of the current pipeline. */
  const SrcPatterns: seq<KeyPattern> :=
    [StartsWith("utm_"), EndsWith("clid"), StartsWith("cache_"), EndsWith("_debug")]

  /** `(^utm_|clid$|^cache_)`, the expression of the earlier pipeline. */
  const RootPatterns: seq<KeyPattern> :=
    [StartsWith("utm_"), EndsWith("clid"), StartsWith("cache_")]

  /**
    `re.search` with one alternative: `^` matches only at the start of the key; `$` matches at the
    end of the key or just before a newline that ends it.
   */
  predicate Matches(p: KeyPattern, key: string) {
    match p
    case StartsWith(prefix) => prefix <= key
    case EndsWith(suffix) => IsSuffix(suffix, key) || IsSuffix(suffix + "\n", key)
  }

  /** `pattern.search(key)` finds a match: some alternative matches. */
  predicate IsTracking(patterns: seq<KeyPattern>, key: string) {
    patterns != [] && (Matches(patterns[0], key) || IsTracking(patterns[1..], key))
  }

  /** The pairs the normalisation keeps: a non-blank value and a key that no pattern matches. */
  predicate Kept(patterns: seq<KeyPattern>, pair: (string, string)) {
    pair.1 != "" && !IsTracking(patterns, pair.0)
  }

  /** `parse_qsl(query)` with its defaults: pairs with a blank value are dropped. */
  function ParseQsl(raw: seq<(string, string)>): (pairs: seq<(string, string)>)
    ensures |pairs| <= |raw|
  {
    if raw == [] then []
    else (if raw[0].1 != "" then [raw[0]] else []) + ParseQsl(raw[1..])
  }

  /** The list comprehension that keeps the pairs whose key `pattern.search` does not match. */
  function DropTracking(patterns: seq<KeyPattern>, pairs: seq<(string, string)>): (kept: seq<(string, string)>)
    ensures |kept| <= |pairs|
  {
    if pairs == [] then []
    else (if IsTracking(patterns, pairs[0].0) then [] else [pairs[0]]) + DropTracking(patterns, pairs[1..])
  }

  /** `parse_qsl` keeps exactly the pairs with a non-blank value. */
  lemma {:induction false} ParseQslMembers(raw: seq<(string, string)>)
    ensures forall p :: p in ParseQsl(raw) <==> p in raw && p.1 != ""
  {
    if raw != [] {
      ParseQslMembers(raw[1..]);
      assert raw == [raw[0]] + raw[1..];
    }
  }

  /** The comprehension keeps exactly the pairs whose key no pattern matches. */
  lemma {:induction false} DropTrackingMembers(patterns: seq<KeyPattern>, pairs: seq<(string, string)>)
    ensures forall p :: p in DropTracking(patterns, pairs) <==> p in pairs && !IsTracking(patterns, p.0)
  {
    if pairs != [] {
      DropTrackingMembers(patterns, pairs[1..]);
      assert pairs == [pairs[0]] + pairs[1..];
    }
  }

  /** The query pairs that survive normalisation. */
  function CleanQuery(patterns: seq<KeyPattern>, raw: seq<(string, string)>): (q: seq<(string, string)>)
    ensures |q| <= |raw|
    ensures forall p :: p in q ==> p in raw && Kept(patterns, p)
  {
    ParseQslMembers(raw);
    DropTrackingMembers(patterns, ParseQsl(raw));
    DropTracking(patterns, ParseQsl(raw))
  }

  /** `parsed_url._replace(query=urlencode(query_params, doseq=True))`. */
  function CleanUrl(patterns: seq<KeyPattern>, u: Url): (r: Url)
    ensures r.(query := u.query) == u
  {
    u.(query := CleanQuery(patterns, u.query))
  }

  /** The kept pairs of `raw` in one pass: an independent statement of what survives. */
  function KeptOnly(patterns: seq<KeyPattern>, raw: seq<(string, string)>): seq<(string, string)> {
    if raw == [] then [] else (if Kept(patterns, raw[0]) then [raw[0]] else []) + KeptOnly(patterns, raw[1..])
  }

  /**
    Normalisation keeps exactly the pairs with a non-blank value and an untracked key, each as often
    as it appeared and in the original relative order.
   */
  lemma {:induction false} CleanQueryIsKeptOnly(patterns: seq<KeyPattern>, raw: seq<(string, string)>)
    ensures CleanQuery(patterns, raw) == KeptOnly(patterns, raw)
    ensures forall p :: p in CleanQuery(patterns, raw) <==> p in raw && Kept(patterns, p)
  {
    ParseQslMembers(raw);
    DropTrackingMembers(patterns, ParseQsl(raw));
    if raw != [] {
      CleanQueryAppend(patterns, [raw[0]], raw[1..]);
      CleanQuerySingle(patterns, raw[0]);
      CleanQueryIsKeptOnly(patterns, raw[1..]);
      assert [raw[0]] + raw[1..] == raw;
    }
  }

  /**
    Normalising a URL changes only its query, which keeps exactly the pairs with a non-blank value
    and an untracked key, in their original order.
   */
  lemma CleanUrlKeeps(patterns: seq<KeyPattern>, u: Url)
    ensures CleanUrl(patterns, u).query == KeptOnly(patterns, u.query)
    ensures forall p :: p in CleanUrl(patterns, u).query <==> p in u.query && Kept(patterns, p)
  {
    CleanQueryIsKeptOnly(patterns, u.query);
  }

  /** A single pair survives alone exactly when it is kept. */
  lemma CleanQuerySingle(patterns: seq<KeyPattern>, pair: (string, string))
    ensures CleanQuery(patterns, [pair]) == if Kept(patterns, pair) then [pair] else []
  {
    assert [pair][1..] == [];
  }

  /** Normalisation preserves order: the cleaned query of a concatenation is the concatenation of the cleaned parts. */
  lemma CleanQueryAppend(patterns: seq<KeyPattern>, a: seq<(string, string)>, b: seq<(string, string)>)
    ensures CleanQuery(patterns, a + b) == CleanQuery(patterns, a) + CleanQuery(patterns, b)
  {
    ParseQslAppend(a, b);
    DropTrackingAppend(patterns, ParseQsl(a), ParseQsl(b));
  }

  lemma {:induction false} ParseQslAppend(a: seq<(string, string)>, b: seq<(string, string)>)
    ensures ParseQsl(a + b) == ParseQsl(a) + ParseQsl(b)
  {
    if a == [] {
      assert a + b == b;
    } else {
      var head := if a[0].1 != "" then [a[0]] else [];
      assert (a + b)[0] == a[0];
      assert (a + b)[1..] == a[1..] + b;
      assert ParseQsl(a + b) == head + ParseQsl(a[1..] + b);
      ParseQslAppend(a[1..], b);
    }
  }

  lemma {:induction false} DropTrackingAppend(patterns: seq<KeyPattern>, a: seq<(string, string)>, b: seq<(string, string)>)
    ensures DropTracking(patterns, a + b) == DropTracking(patterns, a) + DropTracking(patterns, b)
  {
    if a == [] {
      assert a + b == b;
    } else {
      var head := if IsTracking(patterns, a[0].0) then [] else [a[0]];
      assert (a + b)[0] == a[0];
      assert (a + b)[1..] == a[1..] + b;
      assert DropTracking(patterns, a + b) == head + DropTracking(patterns, a[1..] + b);
      DropTrackingAppend(patterns, a[1..], b);
    }
  }

  /** A second pass over an already normalised query removes nothing. */
  lemma {:induction false} CleanQueryIdempotent(patterns: seq<KeyPattern>, raw: seq<(string, string)>)
    ensures CleanQuery(patterns, CleanQuery(patterns, raw)) == CleanQuery(patterns, raw)
  {
    if raw != [] {
      CleanQueryAppend(patterns, [raw[0]], raw[1..]);
      assert [raw[0]] + raw[1..] == raw;
      var head := CleanQuery(patterns, [raw[0]]);
      CleanQueryAppend(patterns, head, CleanQuery(patterns, raw[1..]));
      CleanQueryIdempotent(patterns, raw[1..]);
      CleanQuerySingle(patterns, raw[0]);
    }
  }

  /** Normalising a URL twice gives the URL normalised once. */
  lemma CleanUrlIdempotent(patterns: seq<KeyPattern>, u: Url)
    ensures CleanUrl(patterns, CleanUrl(patterns, u)) == CleanUrl(patterns, u)
  {
    CleanQueryIdempotent(patterns, u.query);
  }

  /** A four-alternative expression matches when one of its alternatives does. */
  lemma TrackingByAlternatives(patterns: seq<KeyPattern>, key: string)
    requires 1 <= |patterns| <= 4
    ensures IsTracking(patterns, key) <==>
      Matches(patterns[0], key) || (|patterns| > 1 && Matches(patterns[1], key)) ||
      (|patterns| > 2 && Matches(patterns[2], key)) || (|patterns| > 3 && Matches(patterns[3], key))
  {
    if |patterns| > 1 {
      TrackingByAlternatives(patterns[1..], key);
    } else {
      assert patterns[1..] == [];
    }
  }

  /** The current expression names exactly the four patterns. */
  lemma SrcTrackingKeys(key: string)
    ensures IsTracking(SrcPatterns, key) <==>
      "utm_" <= key || IsSuffix("clid", key) || IsSuffix("clid\n", key) || "cache_" <= key ||
      IsSuffix("_debug", key) || IsSuffix("_debug\n", key)
  {
    TrackingByAlternatives(SrcPatterns, key);
  }

  /** The earlier expression names exactly three patterns. */
  lemma RootTrackingKeys(key: string)
    ensures IsTracking(RootPatterns, key) <==>
      "utm_" <= key || IsSuffix("clid", key) || IsSuffix("clid\n", key) || "cache_" <= key
  {
    TrackingByAlternatives(RootPatterns, key);
  }

  /** A `_debug` key that matches nothing else is dropped by the current pipeline and kept by the earlier one. */
  lemma DebugKeysDifferBetweenVersions(key: string)
    requires IsSuffix("_debug", key)
    requires !("utm_" <= key) && !("cache_" <= key) && !IsSuffix("clid", key) && !IsSuffix("clid\n", key)
    ensures IsTracking(SrcPatterns, key)
    ensures !IsTracking(RootPatterns, key)
  {
    SrcTrackingKeys(key);
    RootTrackingKeys(key);
  }

  /** `https://example.com/report.pdf?utm_source=x&id=7` loses its `utm_source` pair only. */
  lemma ReportUrlExample()
    ensures CleanUrl(SrcPatterns, Url("https", "example.com", "/report.pdf", "", [("utm_source", "x"), ("id", "7")], ""))
         == Url("https", "example.com", "/report.pdf", "", [("id", "7")], "")
  {
    SrcTrackingKeys("utm_source");
    SrcTrackingKeys("id");
    var raw := [("utm_source", "x"), ("id", "7")];
    CleanQueryAppend(SrcPatterns, [raw[0]], [raw[1]]);
    CleanQuerySingle(SrcPatterns, raw[0]);
    CleanQuerySingle(SrcPatterns, raw[1]);
    assert [raw[0]] + [raw[1]] == raw;
  }
}
