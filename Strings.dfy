/**
 * The string built-ins the route and handler code relies on:
 * `split` and `join` on a one-character separator, prefix and substring
 * tests, and ASCII lower-casing.
 */
module Strings {

  /** `s.split(sep)`: the pieces between the separators, in order; always at least one. */
  function Split(s: string, sep: char): (parts: seq<string>)
    ensures |parts| >= 1
    ensures forall i :: 0 <= i < |parts| ==> sep !in parts[i]
    ensures forall i, c :: 0 <= i < |parts| && c in parts[i] ==> c in s
    decreases |s|
  {
    if |s| == 0 then [""]
    else
      var rest := Split(s[1..], sep);
      assert forall c :: c in s[1..] ==> c in s;
      if s[0] == sep then [""] + rest
      else [[s[0]] + rest[0]] + rest[1..]
  }

  /** `parts.join(sep)`. */
  function Join(parts: seq<string>, sep: char): (r: string)
    ensures |parts| > 0 ==> StartsWith(r, parts[0])
    decreases |parts|
  {
    if |parts| == 0 then ""
    else if |parts| == 1 then parts[0]
    else parts[0] + [sep] + Join(parts[1..], sep)
  }

  predicate StartsWith(s: string, p: string) {
    |p| <= |s| && s[..|p|] == p
  }

  /** `p` occurs somewhere in `s`. */
  predicate Contains(s: string, p: string)
    decreases |s|
  {
    StartsWith(s, p) || (|s| > 0 && Contains(s[1..], p))
  }

  function LowerChar(c: char): char {
    if 'A' <= c <= 'Z' then (c as int + 32) as char else c
  }

  /** `s.toLocaleLowerCase()` for ASCII text. */
  function LowerAscii(s: string): (r: string)
    ensures |r| == |s|
    ensures forall i :: 0 <= i < |r| ==> !('A' <= r[i] <= 'Z')
    ensures forall i :: 0 <= i < |s| && !('A' <= s[i] <= 'Z') ==> r[i] == s[i]
    ensures forall i :: 0 <= i < |s| && 'A' <= s[i] <= 'Z' ==> r[i] as int == s[i] as int + 32
  {
    seq(|s|, i requires 0 <= i < |s| => LowerChar(s[i]))
  }

  /** Lower-casing twice is lower-casing once. */
  lemma LowerAsciiIdempotent(s: string)
    ensures LowerAscii(LowerAscii(s)) == LowerAscii(s)
  {
  }

  /** Splitting a string and joining the pieces again gives the string back. */
  lemma {:induction false} JoinSplit(s: string, sep: char)
    ensures Join(Split(s, sep), sep) == s
    decreases |s|
  {
    if |s| > 0 {
      var rest := Split(s[1..], sep);
      JoinSplit(s[1..], sep);
      if s[0] == sep {
        assert Split(s, sep) == [""] + rest;
        assert ([""] + rest)[1..] == rest;
      } else if |rest| == 1 {
        assert Split(s, sep) == [[s[0]] + rest[0]];
      } else {
        var parts := [[s[0]] + rest[0]] + rest[1..];
        assert Split(s, sep) == parts;
        assert parts[1..] == rest[1..];
        assert Join(rest, sep) == rest[0] + [sep] + Join(rest[1..], sep);
      }
    }
  }

  /** A string without the separator is a single piece. */
  lemma {:induction false} SplitNoSeparator(s: string, sep: char)
    requires sep !in s
    ensures Split(s, sep) == [s]
    decreases |s|
  {
    if |s| > 0 {
      SplitNoSeparator(s[1..], sep);
      assert [s[0]] + s[1..] == s;
    }
  }

  /** A separator between two strings splits them apart. */
  lemma {:induction false} SplitAround(a: string, sep: char, b: string)
    ensures Split(a + [sep] + b, sep) == Split(a, sep) + Split(b, sep)
    decreases |a|
  {
    var s := a + [sep] + b;
    if |a| == 0 {
      assert s[0] == sep && s[1..] == b;
    } else {
      assert s[0] == a[0] && s[1..] == a[1..] + [sep] + b;
      SplitAround(a[1..], sep, b);
      var ra := Split(a[1..], sep);
      if a[0] != sep {
        assert (ra + Split(b, sep))[0] == ra[0];
        assert (ra + Split(b, sep))[1..] == ra[1..] + Split(b, sep);
      }
    }
  }

  /** Joining separator-free pieces and splitting again gives the pieces back. */
  lemma {:induction false} SplitJoin(parts: seq<string>, sep: char)
    requires |parts| >= 1
    requires forall i :: 0 <= i < |parts| ==> sep !in parts[i]
    ensures Split(Join(parts, sep), sep) == parts
    decreases |parts|
  {
    SplitNoSeparator(parts[0], sep);
    if |parts| > 1 {
      SplitJoin(parts[1..], sep);
      SplitAround(parts[0], sep, Join(parts[1..], sep));
      assert [parts[0]] + parts[1..] == parts;
    }
  }

  /** The first piece is empty exactly when the string starts with the separator. */
  lemma SplitFirst(s: string, sep: char)
    ensures Split(s, sep)[0] == "" <==> |s| == 0 || s[0] == sep
  {
  }

  /** A string holding the separator splits into at least two pieces. */
  lemma {:induction false} SplitMany(s: string, sep: char)
    requires sep in s
    ensures |Split(s, sep)| >= 2
    decreases |s|
  {
    if s[0] != sep {
      assert sep in s[1..];
      SplitMany(s[1..], sep);
    }
  }

  /** The last piece is non-empty when the string does not end with the separator. */
  lemma {:induction false} SplitLast(s: string, sep: char)
    requires |s| > 0 && s[|s| - 1] != sep
    ensures var parts := Split(s, sep); parts[|parts| - 1] != "" && parts[|parts| - 1][|parts[|parts| - 1]| - 1] == s[|s| - 1]
    decreases |s|
  {
    if |s| > 1 {
      SplitLast(s[1..], sep);
    }
  }

  /** Joining ends with the last piece. */
  lemma {:induction false} JoinLast(parts: seq<string>, sep: char)
    requires |parts| >= 2
    ensures Join(parts, sep) == Join(parts[..|parts| - 1], sep) + [sep] + parts[|parts| - 1]
    decreases |parts|
  {
    if |parts| > 2 {
      JoinLast(parts[1..], sep);
      assert parts[1..][..|parts| - 2] == parts[..|parts| - 1][1..];
    }
  }

  /** Pieces free of the separator: the join contains it iff there are at least two pieces. */
  lemma {:induction false} JoinSeparator(parts: seq<string>, sep: char)
    requires forall i :: 0 <= i < |parts| ==> sep !in parts[i]
    ensures sep in Join(parts, sep) <==> |parts| >= 2
    decreases |parts|
  {
    if |parts| > 2 {
      var rest := parts[1..];
      assert forall i :: 0 <= i < |rest| ==> rest[i] == parts[i + 1];
      JoinSeparator(rest, sep);
      var front := parts[0] + [sep];
      assert Join(parts, sep) == front + Join(rest, sep);
      assert front[|front| - 1] == sep;
    } else if |parts| == 2 {
      var front := parts[0] + [sep];
      assert Join(parts, sep) == front + parts[1];
      assert front[|front| - 1] == sep;
    }
  }

  /** A join of at least two pieces ends as its last piece does, when that piece is not empty. */
  lemma JoinEnd(parts: seq<string>, sep: char)
    requires |parts| >= 2 && |parts[|parts| - 1]| >= 1
    ensures |Join(parts, sep)| >= 1
    ensures Join(parts, sep)[|Join(parts, sep)| - 1] == parts[|parts| - 1][|parts[|parts| - 1]| - 1]
  {
    JoinLast(parts, sep);
    var front, last := Join(parts[..|parts| - 1], sep) + [sep], parts[|parts| - 1];
    assert Join(parts, sep) == front + last;
    assert (front + last)[|front + last| - 1] == last[|last| - 1];
  }

  /** Joining pieces that start with an empty one yields a string starting with the separator. */
  lemma JoinLeading(parts: seq<string>, sep: char)
    requires |parts| >= 2 && parts[0] == ""
    ensures var s := Join(parts, sep); |s| >= 1 && s[0] == sep
  {
  }
}
