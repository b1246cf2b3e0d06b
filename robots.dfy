/**
  `can_fetch` of `src/robotparser.py` (and its copy `robotparser.py`): a module-level map from an
  origin (`scheme://netloc`) to a robots.txt parser, filled lazily. A read that fails with
  `URLError` stores `None`, which the next call treats as a miss again. The rule matching of the
  Robots Exclusion Protocol (RFC 9309) is the standard library's and stays opaque here.
 */
module Robots {
  import opened Wrappers
  import opened Text
  import opened Urls

  /**
    A parser that has read its robots.txt: where it was read from, and its verdict for a user agent
    and a URL text.
   */
  datatype Parser = Parser(robotsUrl: string, allows: (string, string) -> bool)

  /**
    What `RobotFileParser.read()` did: it read the rules, it raised `URLError`, or it raised some
    other exception, which escapes `can_fetch`.
   */
  datatype ReadOutcome = ReadRules(allows: (string, string) -> bool) | ReadUrlError | ReadRaised(message: string)

  type Cache = map<string, Option<Parser>>

  /** `if not robot_parser:` after `_robots_cache.get(key)`: no entry, or an entry holding `None`. */
  predicate IsMiss(cache: Cache, key: string) {
    key !in cache || cache[key].None?
  }

  /** The answer of `can_fetch(url, agent)` for a cache, given what a read would do. */
  function Decision(cache: Cache, u: Url, agent: string, read: ReadOutcome): (r: Result<bool, string>)
    ensures !IsMiss(cache, OriginKey(u)) ==> r == Ok(cache[OriginKey(u)].value.allows(agent, Render(u)))
    ensures IsMiss(cache, OriginKey(u)) ==>
      match read
      case ReadRules(allows) => r == Ok(allows(agent, Render(u)))
      case ReadUrlError => r == Ok(true)
      case ReadRaised(message) => r == Raised(message)
  {
    var key := OriginKey(u);
    if !IsMiss(cache, key) then Ok(cache[key].value.allows(agent, Render(u)))
    else match read
      case ReadRules(allows) => Ok(allows(agent, Render(u)))
      case ReadUrlError => Ok(true)
      case ReadRaised(message) => Raised(message)
  }

  /** The cache after `can_fetch(url, agent)`. */
  function CacheAfter(cache: Cache, u: Url, read: ReadOutcome): (c: Cache)
    ensures forall k :: k != OriginKey(u) ==> (k in c <==> k in cache)
    ensures forall k :: k != OriginKey(u) && k in c ==> c[k] == cache[k]
    ensures !IsMiss(cache, OriginKey(u)) || read.ReadRaised? ==> c == cache
    ensures IsMiss(cache, OriginKey(u)) && read.ReadRules? ==>
      OriginKey(u) in c && c[OriginKey(u)] == Some(Parser(RobotsUrl(u), read.allows))
    ensures IsMiss(cache, OriginKey(u)) && read.ReadUrlError? ==>
      OriginKey(u) in c && c[OriginKey(u)].None?
  {
    var key := OriginKey(u);
    if !IsMiss(cache, key) then cache
    else match read
      case ReadRules(allows) => cache[key := Some(Parser(RobotsUrl(u), allows))]
      case ReadUrlError => cache[key := None]
      case ReadRaised(_) => cache
  }

  /** Whether the call reads robots.txt: only on a miss. */
  predicate ReadsPolicy(cache: Cache, u: Url) {
    IsMiss(cache, OriginKey(u))
  }

  /** The module-level cache `_robots_cache`, with a log of the robots.txt URLs read. */
  class RobotsCache {
    var entries: Cache
    ghost var readLog: seq<string>

    constructor ()
      ensures entries == map[] && readLog == []
    {
      entries := map[];
      readLog := [];
    }

    /**
      `can_fetch(url, user_agent)`, where `read` is what `RobotFileParser.read()` would do for this
      origin if it is called.
     */
    method CanFetch(u: Url, agent: string, read: ReadOutcome) returns (r: Result<bool, string>)
      modifies this
      ensures r == Decision(old(entries), u, agent, read)
      ensures entries == CacheAfter(old(entries), u, read)
      ensures readLog == old(readLog) + if ReadsPolicy(old(entries), u) then [RobotsUrl(u)] else []
    {
      var key := OriginKey(u);
      var parser: Option<Parser> := if key in entries then entries[key] else None;
      if parser.None? {
        var robotsUrl := key + "/robots.txt";
        readLog := readLog + [robotsUrl];
        match read {
          case ReadRaised(message) =>
            return Raised(message);
          case ReadUrlError =>
            parser := None;
          case ReadRules(allows) =>
            parser := Some(Parser(robotsUrl, allows));
        }
        entries := entries[key := parser];
      }
      if parser.None? {
        return Ok(true);
      }
      r := Ok(parser.value.allows(agent, Render(u)));
    }
  }

  /** On a hit the read outcome plays no part: neither the answer nor the cache depends on it. */
  lemma HitIgnoresRead(cache: Cache, u: Url, agent: string, read1: ReadOutcome, read2: ReadOutcome)
    requires !IsMiss(cache, OriginKey(u))
    ensures Decision(cache, u, agent, read1) == Decision(cache, u, agent, read2)
    ensures CacheAfter(cache, u, read1) == cache
  {
  }

  /**
    An unreachable origin is never remembered: after a `URLError` the entry is `None`, so the next
    call for the same origin reads again and follows whatever that read gives.
   */
  lemma UnreachableOriginIsReread(cache: Cache, u: Url, agent: string, next: ReadOutcome)
    requires IsMiss(cache, OriginKey(u))
    ensures ReadsPolicy(CacheAfter(cache, u, ReadUrlError), u)
    ensures Decision(CacheAfter(cache, u, ReadUrlError), u, agent, next) == Decision(cache, u, agent, next)
  {
  }

  /**
    Two URLs of the same origin share one entry: once the first has read the rules, the second is
    answered by the same parser without a read.
   */
  lemma SameOriginSharesParser(cache: Cache, u: Url, v: Url, agent: string, allows: (string, string) -> bool, next: ReadOutcome)
    requires ':' !in u.scheme && ':' !in v.scheme
    requires u.scheme == v.scheme && u.netloc == v.netloc
    requires IsMiss(cache, OriginKey(u))
    ensures !ReadsPolicy(CacheAfter(cache, u, ReadRules(allows)), v)
    ensures Decision(CacheAfter(cache, u, ReadRules(allows)), v, agent, next) == Ok(allows(agent, Render(v)))
  {
    SameOrigin(u, v);
  }

  /** URLs of different origins do not see each other's entries. */
  lemma OtherOriginUnaffected(cache: Cache, u: Url, v: Url, agent: string, read: ReadOutcome, next: ReadOutcome)
    requires ':' !in u.scheme && ':' !in v.scheme
    requires u.scheme != v.scheme || u.netloc != v.netloc
    ensures Decision(CacheAfter(cache, u, read), v, agent, next) == Decision(cache, v, agent, next)
  {
    SameOrigin(u, v);
  }

  /** A call that does not raise leaves an entry for its origin. */
  lemma EntryAfterCall(cache: Cache, u: Url, read: ReadOutcome)
    requires !read.ReadRaised?
    ensures OriginKey(u) in CacheAfter(cache, u, read)
  {
  }
}
