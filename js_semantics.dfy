// The few JavaScript behaviours the middleware and the registry depend on:
// optional values, truthiness, Array.prototype.indexOf and String.prototype.split.

module JsSemantics {

  /** A value that may be `undefined` or `null` (None) or present (Some). */
  datatype Option<+T> = None | Some(value: T)

  /** Outcome of an operation that either returns a value or throws. */
  datatype Result<+T, +E> = Success(value: T) | Failure(error: E)

  /** JavaScript truthiness of a string that may be missing:
      `undefined`, `null` and the empty string are falsy, every other string is truthy. */
  predicate Truthy(s: Option<string>)
  {
    s.Some? && s.value != ""
  }

  /** `xs && xs.length` for an array that may be `null`: an empty array is truthy,
      but its length 0 is not. */
  predicate NonEmpty<T>(xs: Option<seq<T>>)
  {
    xs.Some? && |xs.value| > 0
  }

  /** `xs.indexOf(x)`: the first position holding `x` under strict equality, or -1. */
  function IndexOf<T(==)>(xs: seq<T>, x: T): (r: int)
    ensures -1 <= r < |xs|
    ensures r == -1 <==> x !in xs
    ensures 0 <= r ==> xs[r] == x && forall j :: 0 <= j < r ==> xs[j] != x
  {
    if |xs| == 0 then -1
    else if xs[0] == x then 0
    else
      var k := IndexOf(xs[1..], x);
      assert xs == [xs[0]] + xs[1..];
      if k == -1 then -1 else k + 1
  }

  /** `r` is what follows the last `sep` in `s` (all of `s` when `sep` does not occur):
      a suffix of `s` free of `sep` that either is all of `s` or is preceded by `sep`. */
  predicate IsLastSegment(s: string, sep: char, r: string)
  {
    && |r| <= |s|
    && r == s[|s| - |r|..]
    && sep !in r
    && (|r| == |s| || s[|s| - |r| - 1] == sep)
  }

  /** There is only one last segment. */
  lemma LastSegmentUnique(s: string, sep: char, r1: string, r2: string)
    requires IsLastSegment(s, sep, r1) && IsLastSegment(s, sep, r2)
    ensures r1 == r2
  {
  }

  /** `s.split(sep)` for a one-character separator: the pieces between the
      separators, empty pieces included, never trimmed. `"".split(sep)` is `[""]`. */
  function Split(s: string, sep: char): (parts: seq<string>)
    ensures |parts| >= 1
    ensures forall k :: 0 <= k < |parts| ==> sep !in parts[k]
    ensures sep !in s ==> parts == [s]
    decreases |s|
  {
    if |s| == 0 then [""]
    else
      var rest := Split(s[1..], sep);
      if s[0] == sep then [""] + rest
      else
        assert s == [s[0]] + s[1..];
        [[s[0]] + rest[0]] + rest[1..]
  }

  /** Prepending one character keeps a last segment, unless the segment was the whole
      string and the new character is not a separator. */
  lemma LastSegmentExtend(s: string, sep: char, r: string)
    requires |s| > 0 && IsLastSegment(s[1..], sep, r)
    requires |r| < |s| - 1 || s[0] == sep
    ensures IsLastSegment(s, sep, r)
  {
    assert s[1..][|s| - 1 - |r|..] == s[|s| - |r|..];
    if |r| < |s| - 1 {
      assert s[1..][|s| - 1 - |r| - 1] == s[|s| - |r| - 1];
    }
  }

  /** The last piece of a split is the last segment, and a string with a
      separator splits into at least two pieces. */
  lemma {:induction false} SplitLast(s: string, sep: char)
    ensures sep in s ==> |Split(s, sep)| >= 2
    ensures IsLastSegment(s, sep, Split(s, sep)[|Split(s, sep)| - 1])
    decreases |s|
  {
    if |s| > 0 {
      var t := s[1..];
      var rest := Split(t, sep);
      var parts := Split(s, sep);
      SplitLast(t, sep);
      assert s == [s[0]] + t;
      var last := rest[|rest| - 1];
      if s[0] == sep {
        assert parts == [""] + rest;
        assert parts[|parts| - 1] == last;
        LastSegmentExtend(s, sep, last);
      } else if |rest| == 1 {
        assert sep !in t;
        assert parts == [s];
      } else {
        assert parts == [[s[0]] + rest[0]] + rest[1..];
        assert parts[|parts| - 1] == last;
        assert sep in t;
        assert |last| < |t|;
        LastSegmentExtend(s, sep, last);
      }
    }
  }

  /** `parts.join(sep)`. */
  function Join(parts: seq<string>, sep: char): (s: string)
    requires |parts| >= 1
  {
    if |parts| == 1 then parts[0] else parts[0] + [sep] + Join(parts[1..], sep)
  }

  /** Splitting loses nothing: joining the pieces back gives the original string. */
  lemma {:induction false} JoinSplit(s: string, sep: char)
    ensures Join(Split(s, sep), sep) == s
    decreases |s|
  {
    if |s| > 0 {
      var rest := Split(s[1..], sep);
      var parts := Split(s, sep);
      JoinSplit(s[1..], sep);
      assert s == [s[0]] + s[1..];
      if s[0] == sep {
        assert parts == [""] + rest;
        assert parts[1..] == rest;
        assert Join(parts, sep) == "" + [sep] + Join(rest, sep);
      } else if |rest| == 1 {
        assert parts == [[s[0]] + rest[0]];
        assert Join(rest, sep) == rest[0];
      } else {
        assert parts == [[s[0]] + rest[0]] + rest[1..];
        assert parts[1..] == rest[1..];
        assert Join(parts, sep) == [s[0]] + rest[0] + [sep] + Join(rest[1..], sep);
        assert Join(rest, sep) == rest[0] + [sep] + Join(rest[1..], sep);
      }
    }
  }
}
