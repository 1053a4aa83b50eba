/**
 * The few JavaScript value rules that the server's decisions rest on:
 * optional values (`undefined`/`null`), truthiness of strings, and
 * `String.prototype.split` with a one-character separator.
 */
module Js {

  /** A value that may be `undefined` (or `null`). */
  datatype Option<+T> = None | Some(value: T)

  /** JavaScript truthiness of an optional string: `undefined`, `null` and `""` are falsy. */
  predicate Truthy(v: Option<string>) {
    v.Some? && v.value != ""
  }

  /** `a || b` for an optional string `a` and a string `b`. */
  function OrElse(a: Option<string>, b: string): (r: string)
    ensures Truthy(a) ==> r == a.value
    ensures !Truthy(a) ==> r == b
  {
    if Truthy(a) then a.value else b
  }

  /**
   * `s.split(sep)` for a one-character separator: the maximal runs between
   * separators, in order, including empty runs at either end.
   */
  function Split(s: string, sep: char): (parts: seq<string>)
    ensures |parts| >= 1
    ensures forall i :: 0 <= i < |parts| ==> sep !in parts[i]
    decreases |s|
  {
    if s == [] then [[]]
    else
      var rest := Split(s[1..], sep);
      if s[0] == sep then [[]] + rest
      else [[s[0]] + rest[0]] + rest[1..]
  }

  /** `parts.join(sep)`: the inverse of `Split`. */
  function Join(parts: seq<string>, sep: char): string
    requires |parts| >= 1
    decreases |parts|
  {
    if |parts| == 1 then parts[0] else parts[0] + [sep] + Join(parts[1..], sep)
  }

  /** Splitting and joining again gives back the original string. */
  lemma {:induction false} JoinSplit(s: string, sep: char)
    ensures Join(Split(s, sep), sep) == s
    decreases |s|
  {
    if s != [] {
      var rest := Split(s[1..], sep);
      JoinSplit(s[1..], sep);
      assert s == [s[0]] + s[1..];
      if s[0] == sep {
        assert ([[]] + rest)[1..] == rest;
      } else if |rest| > 1 {
        var parts := [[s[0]] + rest[0]] + rest[1..];
        assert parts[1..] == rest[1..];
        assert Join(rest, sep) == rest[0] + [sep] + Join(rest[1..], sep);
      }
    }
  }

  /** A separator-free string followed by a separator splits off as one first part. */
  lemma {:induction false} SplitAfterPart(p: string, t: string, sep: char)
    requires sep !in p
    ensures Split(p + [sep] + t, sep) == [p] + Split(t, sep)
    decreases |p|
  {
    if p == [] {
      assert ([sep] + t)[1..] == t;
    } else {
      SplitAfterPart(p[1..], t, sep);
      assert (p + [sep] + t)[1..] == p[1..] + [sep] + t;
      assert [p[0]] + p[1..] == p;
    }
  }

  /** A separator-free string splits into itself alone. */
  lemma {:induction false} SplitWithoutSeparator(p: string, sep: char)
    requires sep !in p
    ensures Split(p, sep) == [p]
    decreases |p|
  {
    if p != [] {
      SplitWithoutSeparator(p[1..], sep);
      assert [p[0]] + p[1..] == p;
    }
  }

  /** Joining separator-free parts and splitting again gives back the parts. */
  lemma {:induction false} SplitJoin(parts: seq<string>, sep: char)
    requires |parts| >= 1
    requires forall i :: 0 <= i < |parts| ==> sep !in parts[i]
    ensures Split(Join(parts, sep), sep) == parts
    decreases |parts|
  {
    if |parts| == 1 {
      SplitWithoutSeparator(parts[0], sep);
    } else {
      SplitJoin(parts[1..], sep);
      SplitAfterPart(parts[0], Join(parts[1..], sep), sep);
      assert [parts[0]] + parts[1..] == parts;
    }
  }

  /**
   * `s.split(sep)[0]` is the part of `s` before its first separator, and
   * all of `s` when `s` holds no separator.
   */
  lemma FirstPart(s: string, sep: char)
    ensures var p := Split(s, sep)[0];
      && p <= s
      && sep !in p
      && (|p| < |s| ==> s[|p|] == sep)
      && (sep !in s ==> p == s)
  {
    var parts := Split(s, sep);
    JoinSplit(s, sep);
    if |parts| > 1 {
      assert s == parts[0] + ([sep] + Join(parts[1..], sep));
    }
  }

  /** There is one more part than there are separators. */
  lemma {:induction false} SplitCount(s: string, sep: char)
    ensures |Split(s, sep)| == multiset(s)[sep] + 1
    decreases |s|
  {
    if s != [] {
      SplitCount(s[1..], sep);
      assert s == [s[0]] + s[1..];
    }
  }
}
