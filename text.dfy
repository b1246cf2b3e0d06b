/**
  The string operations the pipeline relies on, written the way Python's `str` methods behave:
  `split` on a one-character separator, `join`, `strip`, `lower`, and the truthiness of an
  optional string.
 */
module Text {
  import opened Wrappers

  /** Python's `if value:` for an optional string: neither `None` nor the empty string. */
  predicate Truthy(v: Option<string>) {
    v.Some? && v.value != ""
  }

  /** `x` is a suffix of `s` (Python's `s.endswith(x)`). */
  predicate IsSuffix(x: string, s: string) {
    |x| <= |s| && s[|s| - |x|..] == x
  }

  /** Python's `s.split(c)` for a one-character separator: the pieces between occurrences of `c`. */
  function Split(s: string, c: char): (parts: seq<string>)
    ensures |parts| >= 1
    ensures forall i :: 0 <= i < |parts| ==> c !in parts[i]
  {
    if s == [] then [""]
    else
      var rest := Split(s[1..], c);
      if s[0] == c then [""] + rest
      else [[s[0]] + rest[0]] + rest[1..]
  }

  /** Python's `sep.join(parts)`. */
  function Join(parts: seq<string>, sep: string): string {
    if |parts| == 0 then ""
    else if |parts| == 1 then parts[0]
    else parts[0] + sep + Join(parts[1..], sep)
  }

  /** A piece without the separator splits into itself. */
  lemma {:induction false} SplitWithoutSeparator(s: string, c: char)
    requires c !in s
    ensures Split(s, c) == [s]
  {
    if s != [] {
      SplitWithoutSeparator(s[1..], c);
      assert [s[0]] + s[1..] == s;
    }
  }

  /** Splitting distributes over a separator: `(p + c + r).split(c) == p.split(c) + r.split(c)`. */
  lemma {:induction false} SplitAroundSeparator(p: string, r: string, c: char)
    ensures Split(p + [c] + r, c) == Split(p, c) + Split(r, c)
  {
    var s := p + [c] + r;
    if p == [] {
      assert s[1..] == r;
    } else {
      assert s[0] == p[0];
      assert s[1..] == p[1..] + [c] + r;
      SplitAroundSeparator(p[1..], r, c);
    }
  }

  /** Joining the pieces of a split with the separator gives the string back. */
  lemma {:induction false} JoinSplit(s: string, c: char)
    ensures Join(Split(s, c), [c]) == s
  {
    if s != [] {
      var rest := Split(s[1..], c);
      JoinSplit(s[1..], c);
      if s[0] == c {
        assert Split(s, c) == [""] + rest;
        assert ([""] + rest)[1..] == rest;
      } else {
        var parts := Split(s, c);
        assert parts[0] == [s[0]] + rest[0];
        if |rest| > 1 {
          assert parts[1..] == rest[1..];
        }
      }
    }
  }

  /** Splitting a join of separator-free pieces gives the pieces back. */
  lemma {:induction false} SplitJoin(parts: seq<string>, c: char)
    requires |parts| >= 1
    requires forall i :: 0 <= i < |parts| ==> c !in parts[i]
    ensures Split(Join(parts, [c]), c) == parts
  {
    if |parts| == 1 {
      SplitWithoutSeparator(parts[0], c);
    } else {
      SplitJoin(parts[1..], c);
      SplitWithoutSeparator(parts[0], c);
      SplitAroundSeparator(parts[0], Join(parts[1..], [c]), c);
      assert Join(parts, [c]) == parts[0] + [c] + Join(parts[1..], [c]);
    }
  }

  /** `r` is a separator-free suffix of `s` that is all of `s` or follows a separator. */
  predicate IsLastPiece(r: string, s: string, c: char) {
    c !in r && IsSuffix(r, s) && (|r| == |s| || s[|s| - |r| - 1] == c)
  }

  /** Python's `s.split(c)[-1]`: the longest separator-free suffix of `s`. */
  function AfterLast(s: string, c: char): (r: string)
    ensures c !in r
    ensures IsSuffix(r, s)
    ensures |r| == |s| || s[|s| - |r| - 1] == c
  {
    if s == [] then ""
    else if s[|s| - 1] == c then ""
    else AfterLast(s[..|s| - 1], c) + [s[|s| - 1]]
  }

  /** Python's `s.split(c)[0]`: the longest separator-free prefix of `s`. */
  function BeforeFirst(s: string, c: char): (r: string)
    ensures c !in r
    ensures r <= s
    ensures |r| == |s| || s[|r|] == c
  {
    if s == [] || s[0] == c then ""
    else [s[0]] + BeforeFirst(s[1..], c)
  }

  /** `BeforeFirst` is the first piece of `Split`. */
  lemma {:induction false} BeforeFirstIsFirstPiece(s: string, c: char)
    ensures BeforeFirst(s, c) == Split(s, c)[0]
  {
    if s != [] && s[0] != c {
      BeforeFirstIsFirstPiece(s[1..], c);
    }
  }

  /** `AfterLast` is the last piece of `Split`. */
  lemma AfterLastIsLastPiece(s: string, c: char)
    ensures AfterLast(s, c) == Split(s, c)[|Split(s, c)| - 1]
  {
    var r := AfterLast(s, c);
    if |r| == |s| {
      assert r == s;
      SplitWithoutSeparator(s, c);
    } else {
      var p := s[..|s| - |r| - 1];
      assert s == p + [c] + r;
      SplitAroundSeparator(p, r, c);
      SplitWithoutSeparator(r, c);
    }
  }

  /** A separator followed by a separator-free tail: the tail is what comes after the last separator. */
  lemma AfterLastOfAppend(p: string, x: string, c: char)
    requires c !in x
    ensures AfterLast(p + [c] + x, c) == x
  {
    var s := p + [c] + x;
    assert s[|s| - |x| - 1] == c;
  }

  /** A separator-free string is its own `AfterLast`. */
  lemma AfterLastWithoutSeparator(x: string, c: char)
    requires c !in x
    ensures AfterLast(x, c) == x
  {
  }

  /** A separator-free head followed by the separator: the head is what comes before the first one. */
  lemma BeforeFirstOfPrepend(x: string, rest: string, c: char)
    requires c !in x
    ensures BeforeFirst(x + [c] + rest, c) == x
  {
    var s := x + [c] + rest;
    assert s[|x|] == c;
  }

  /** The characters Python's `str.strip()` removes by default (`str.isspace`). */
  const Whitespace: set<char> := {
    ' ', '\U{0009}', '\U{000A}', '\U{000D}', '\U{000B}', '\U{000C}', '\U{001C}', '\U{001D}',
    '\U{001E}', '\U{001F}', '\U{0085}', '\U{00A0}', '\U{1680}', '\U{2000}', '\U{2001}', '\U{2002}',
    '\U{2003}', '\U{2004}', '\U{2005}', '\U{2006}', '\U{2007}', '\U{2008}', '\U{2009}', '\U{200A}',
    '\U{2028}', '\U{2029}', '\U{202F}', '\U{205F}', '\U{3000}'
  }

  /** Python's `s.lstrip(chars)`. */
  function StripLeft(s: string, chars: set<char>): (r: string)
    ensures IsSuffix(r, s)
    ensures r == [] || r[0] !in chars
    ensures forall i :: 0 <= i < |s| - |r| ==> s[i] in chars
  {
    if s == [] || s[0] !in chars then s
    else StripLeft(s[1..], chars)
  }

  /** Python's `s.rstrip(chars)`. */
  function StripRight(s: string, chars: set<char>): (r: string)
    ensures r <= s
    ensures r == [] || r[|r| - 1] !in chars
    ensures forall i :: |r| <= i < |s| ==> s[i] in chars
  {
    if s == [] || s[|s| - 1] !in chars then s
    else StripRight(s[..|s| - 1], chars)
  }

  /** `r` is the slice of `s` at `a`, and every character of `s` outside that slice is in `chars`. */
  predicate TrimmedAt(r: string, s: string, chars: set<char>, a: int) {
    0 <= a <= |s| - |r| && r == s[a..a + |r|] &&
    (forall i :: 0 <= i < a ==> s[i] in chars) &&
    (forall i :: a + |r| <= i < |s| ==> s[i] in chars)
  }

  /** Python's `s.strip(chars)`: both ends lose every character in `chars`. */
  function Strip(s: string, chars: set<char>): (r: string)
    ensures r == [] || (r[0] !in chars && r[|r| - 1] !in chars)
    ensures forall ch :: ch in r ==> ch in s
    ensures |r| <= |s|
  {
    var left := StripLeft(s, chars);
    assert forall ch :: ch in left ==> ch in s by {
      assert left == s[|s| - |left|..];
    }
    StripRight(left, chars)
  }

  /**
    `strip` removes characters of `chars` from the ends of `s` and nothing else: what remains is a
    slice of `s` with only characters of `chars` outside it.
   */
  lemma StripTrims(s: string, chars: set<char>)
    ensures exists a :: TrimmedAt(Strip(s, chars), s, chars, a)
  {
    var left := StripLeft(s, chars);
    var r := StripRight(left, chars);
    assert Strip(s, chars) == r;
    StripIsSlice(s, left, r, chars);
    assert TrimmedAt(Strip(s, chars), s, chars, |s| - |left|);
  }

  /** A prefix of a suffix of `s` is a slice of `s`. */
  lemma SliceOfSuffix(s: string, left: string, r: string)
    requires IsSuffix(left, s) && r <= left
    ensures r == s[|s| - |left|..|s| - |left| + |r|]
  {
    var a := |s| - |left|;
    forall i | 0 <= i < |r|
      ensures s[a + i] == r[i]
    {
      assert r[i] == left[i];
      assert left[i] == s[a..][i];
    }
  }

  /**
    Right-stripping what left-stripping leaves is a slice of `s` with only `chars` around it: what
    each side removed, as the contracts of `StripLeft` and `StripRight` state it.
   */
  lemma StripIsSlice(s: string, left: string, r: string, chars: set<char>)
    requires IsSuffix(left, s) && forall i :: 0 <= i < |s| - |left| ==> s[i] in chars
    requires r <= left && forall i :: |r| <= i < |left| ==> left[i] in chars
    ensures TrimmedAt(r, s, chars, |s| - |left|)
  {
    var a := |s| - |left|;
    SliceOfSuffix(s, left, r);
    assert left == s[a..];
    forall i | a + |r| <= i < |s|
      ensures s[i] in chars
    {
      assert s[i] == s[a..][i - a];
    }
  }

  /** Characters of `chars` in front of a string are all removed by `lstrip`. */
  lemma {:induction false} StripLeftPadded(w: string, x: string, chars: set<char>)
    requires forall i :: 0 <= i < |w| ==> w[i] in chars
    ensures StripLeft(w + x, chars) == StripLeft(x, chars)
  {
    if w != [] {
      assert (w + x)[1..] == w[1..] + x;
      StripLeftPadded(w[1..], x, chars);
    } else {
      assert w + x == x;
    }
  }

  /** Characters of `chars` after a string are all removed by `rstrip`. */
  lemma {:induction false} StripRightPadded(x: string, w: string, chars: set<char>)
    requires forall i :: 0 <= i < |w| ==> w[i] in chars
    ensures StripRight(x + w, chars) == StripRight(x, chars)
  {
    if w != [] {
      var init := w[..|w| - 1];
      assert (x + w)[|x + w| - 1] == w[|w| - 1];
      assert (x + w)[..|x + w| - 1] == x + init;
      StripRightPadded(x, init, chars);
    } else {
      assert x + w == x;
    }
  }

  /** Padding of `chars` on both sides of a string whose ends are not in `chars` is what `strip` removes. */
  lemma StripPadded(w1: string, t: string, w2: string, chars: set<char>)
    requires forall i :: 0 <= i < |w1| ==> w1[i] in chars
    requires forall i :: 0 <= i < |w2| ==> w2[i] in chars
    requires t == [] || (t[0] !in chars && t[|t| - 1] !in chars)
    ensures Strip(w1 + t + w2, chars) == t
  {
    var s := w1 + t + w2;
    assert s == w1 + (t + w2);
    StripLeftPadded(w1, t + w2, chars);
    var left := StripLeft(t + w2, chars);
    if t == [] {
      assert t + w2 == w2 + [];
      StripLeftPadded(w2, [], chars);
      assert left == [];
    } else {
      assert (t + w2)[0] == t[0];
      assert left == t + w2;
      StripRightPadded(t, w2, chars);
    }
    assert Strip(s, chars) == StripRight(left, chars);
  }

  /** A string whose ends are already free of `chars` is left as it is. */
  lemma StripUnchanged(s: string, chars: set<char>)
    requires s == [] || (s[0] !in chars && s[|s| - 1] !in chars)
    ensures Strip(s, chars) == s
  {
  }

  /** Stripping a string whose ends are already free of `chars` changes nothing. */
  lemma StripIdempotent(s: string, chars: set<char>)
    ensures Strip(Strip(s, chars), chars) == Strip(s, chars)
  {
    StripUnchanged(Strip(s, chars), chars);
  }

  predicate IsAsciiUpper(ch: char) {
    'A' <= ch <= 'Z'
  }

  /** Python's `ch.lower()` on ASCII letters; other characters are kept. */
  function LowerChar(ch: char): (r: char)
    ensures !IsAsciiUpper(r)
    ensures !IsAsciiUpper(ch) ==> r == ch
    ensures IsAsciiUpper(ch) ==> r as int == ch as int + 32
  {
    if IsAsciiUpper(ch) then (ch as int - 'A' as int + 'a' as int) as char else ch
  }

  /** Python's `s.lower()`, restricted to ASCII letters. */
  function Lower(s: string): (r: string)
    ensures |r| == |s|
    ensures forall i :: 0 <= i < |r| ==> !IsAsciiUpper(r[i])
    ensures forall i :: 0 <= i < |r| ==> (s[i] in Whitespace <==> r[i] in Whitespace)
    ensures forall i :: 0 <= i < |r| && !IsAsciiUpper(s[i]) ==> r[i] == s[i]
    ensures forall i :: 0 <= i < |r| && IsAsciiUpper(s[i]) ==> r[i] as int == s[i] as int + 32
  {
    seq(|s|, i requires 0 <= i < |s| => LowerChar(s[i]))
  }
}
