/**
 * The few JavaScript string operations the extension relies on:
 * `String.prototype.endsWith`, `String.prototype.split` with a one-character
 * separator, and `Array.prototype.join`.
 */
module Strings {

  /** `s.endsWith(suffix)` */
  predicate EndsWith(s: string, suffix: string) {
    |suffix| <= |s| && s[|s| - |suffix|..] == suffix
  }

  /** `s.split(sep)`: the maximal runs between separators, empty runs included. */
  function Split(s: string, sep: char): (parts: seq<string>)
    ensures |parts| >= 1
    ensures forall i :: 0 <= i < |parts| ==> sep !in parts[i]
  {
    if s == [] then [""]
    else
      var rest := Split(s[1..], sep);
      if s[0] == sep then [""] + rest
      else [[s[0]] + rest[0]] + rest[1..]
  }

  /** `parts.join(sep)` */
  function Join(parts: seq<string>, sep: char): string {
    if parts == [] then ""
    else if |parts| == 1 then parts[0]
    else parts[0] + [sep] + Join(parts[1..], sep)
  }

  /** Joining the pieces of a split gives back the original string. */
  lemma {:induction false} JoinSplit(s: string, sep: char)
    ensures Join(Split(s, sep), sep) == s
  {
    if s != [] {
      var rest := Split(s[1..], sep);
      JoinSplit(s[1..], sep);
      if s[0] == sep {
        assert Split(s, sep) == [""] + rest;
      } else if |rest| == 1 {
        assert Split(s, sep) == [[s[0]] + rest[0]];
      } else {
        var parts := Split(s, sep);
        assert parts == [[s[0]] + rest[0]] + rest[1..];
        assert parts[1..] == rest[1..];
        assert Join(rest, sep) == rest[0] + [sep] + Join(rest[1..], sep);
      }
    }
  }

  /** A string without the separator splits into itself alone. */
  lemma {:induction false} SplitWithoutSeparator(s: string, sep: char)
    requires sep !in s
    ensures Split(s, sep) == [s]
  {
    if s != [] {
      SplitWithoutSeparator(s[1..], sep);
      assert [s[0]] + s[1..] == s;
    }
  }

  /** Splitting `a + sep + b`, with no separator in `a`, yields `a` followed by the pieces of `b`. */
  lemma {:induction false} SplitAfterSeparator(a: string, b: string, sep: char)
    requires sep !in a
    ensures Split(a + [sep] + b, sep) == [a] + Split(b, sep)
  {
    if a == [] {
      assert ([sep] + b)[1..] == b;
    } else {
      var ab := a + [sep] + b;
      assert ab[0] == a[0] && ab[1..] == a[1..] + [sep] + b;
      SplitAfterSeparator(a[1..], b, sep);
      var rest := Split(ab[1..], sep);
      assert rest == [a[1..]] + Split(b, sep);
      assert Split(ab, sep) == [[a[0]] + rest[0]] + rest[1..];
      assert [a[0]] + a[1..] == a;
    }
  }

  /** Splitting a join gives back the parts, provided none of them holds the separator. */
  lemma {:induction false} SplitJoin(parts: seq<string>, sep: char)
    requires |parts| >= 1
    requires forall i :: 0 <= i < |parts| ==> sep !in parts[i]
    ensures Split(Join(parts, sep), sep) == parts
  {
    if |parts| == 1 {
      SplitWithoutSeparator(parts[0], sep);
    } else {
      SplitJoin(parts[1..], sep);
      SplitAfterSeparator(parts[0], Join(parts[1..], sep), sep);
    }
  }

  /** Appending a last part to a non-empty join adds the separator and that part. */
  lemma {:induction false} JoinSnoc(parts: seq<string>, last: string, sep: char)
    requires |parts| >= 1
    ensures Join(parts + [last], sep) == Join(parts, sep) + [sep] + last
  {
    if |parts| > 1 {
      assert (parts + [last])[1..] == parts[1..] + [last];
      JoinSnoc(parts[1..], last, sep);
    }
  }

  /** A string holds the separator exactly when it splits into more than one piece. */
  lemma SplitCount(s: string, sep: char)
    ensures |Split(s, sep)| == 1 <==> sep !in s
  {
    var parts := Split(s, sep);
    JoinSplit(s, sep);
    if |parts| > 1 {
      assert s == parts[0] + [sep] + Join(parts[1..], sep);
      assert s[|parts[0]|] == sep;
    } else {
      assert s == parts[0];
    }
  }

  /** The pieces before the last one, joined back, are the string up to its last separator. */
  lemma AllButLastSegment(s: string, sep: char)
    requires sep in s
    ensures var parts := Split(s, sep);
      var r := Join(parts[..|parts| - 1], sep);
      |r| < |s| && s == r + [sep] + s[|r| + 1..] && sep !in s[|r| + 1..]
  {
    var parts := Split(s, sep);
    var r := Join(parts[..|parts| - 1], sep);
    SplitCount(s, sep);
    JoinSplit(s, sep);
    assert parts == parts[..|parts| - 1] + [parts[|parts| - 1]];
    JoinSnoc(parts[..|parts| - 1], parts[|parts| - 1], sep);
    assert s == r + [sep] + parts[|parts| - 1];
    assert s[|r| + 1..] == parts[|parts| - 1];
  }

  /**
   * Split on the separator, drop the last piece and join the rest again:
   * everything before the last separator, or the empty string when there is none.
   */
  function DropLastSegment(s: string, sep: char): (r: string)
    ensures sep !in s ==> r == ""
    ensures sep in s ==>
      |r| < |s| && s == r + [sep] + s[|r| + 1..] && sep !in s[|r| + 1..]
  {
    var parts := Split(s, sep);
    SplitCount(s, sep);
    if sep in s then
      AllButLastSegment(s, sep);
      Join(parts[..|parts| - 1], sep)
    else
      Join(parts[..|parts| - 1], sep)
  }
}
