/** JavaScript's `String.prototype.split` with a one-character separator and
    `Array.prototype.join`, the two string operations the dashboard relies on
    to read telemetry frames and to write CSV. */
module Strings {

  /** The number of occurrences of `c` in `s`. */
  function Count(s: string, c: char): nat
    decreases |s|
  {
    if |s| == 0 then 0 else (if s[0] == c then 1 else 0) + Count(s[1..], c)
  }

  /** `s.split(sep)`: the maximal separator-free pieces of `s`, in order.
      Like JavaScript, the empty string splits into one empty piece and a
      separator at either end yields an empty piece there. */
  function Split(s: string, sep: char): (parts: seq<string>)
    ensures |parts| == Count(s, sep) + 1
    ensures forall i :: 0 <= i < |parts| ==> sep !in parts[i]
    decreases |s|
  {
    if |s| == 0 then [[]]
    else
      var rest := Split(s[1..], sep);
      if s[0] == sep then [[]] + rest
      else [[s[0]] + rest[0]] + rest[1..]
  }

  /** `parts.join(sep)`; the empty list joins to the empty string. */
  function Join(parts: seq<string>, sep: char): (s: string)
    ensures |parts| > 0 ==> parts[0] <= s
    ensures |parts| > 1 ==> |s| > |parts[0]| && s[|parts[0]|] == sep
    decreases |parts|
  {
    if |parts| == 0 then []
    else if |parts| == 1 then parts[0]
    else parts[0] + [sep] + Join(parts[1..], sep)
  }

  /** Putting a character in front of the first piece puts it in front of
      the join. */
  lemma JoinConsFirst(c: char, parts: seq<string>, sep: char)
    requires |parts| > 0
    ensures Join([[c] + parts[0]] + parts[1..], sep) == [c] + Join(parts, sep)
  {
    var front := [[c] + parts[0]] + parts[1..];
    if |parts| > 1 {
      assert front[1..] == parts[1..];
    }
  }

  /** Joining the pieces of a split with the same separator gives back the
      original text. */
  lemma {:induction false} JoinSplit(s: string, sep: char)
    ensures Join(Split(s, sep), sep) == s
    decreases |s|
  {
    if |s| > 0 {
      var rest := Split(s[1..], sep);
      JoinSplit(s[1..], sep);
      assert Join(rest, sep) == s[1..];
      if s[0] == sep {
        calc {
          Join(Split(s, sep), sep);
          { assert Split(s, sep) == [[]] + rest; }
          Join([[]] + rest, sep);
          { assert ([[]] + rest)[1..] == rest; }
          [sep] + Join(rest, sep);
        }
      } else {
        calc {
          Join(Split(s, sep), sep);
          { assert Split(s, sep) == [[s[0]] + rest[0]] + rest[1..]; }
          Join([[s[0]] + rest[0]] + rest[1..], sep);
          { JoinConsFirst(s[0], rest, sep); }
          [s[0]] + Join(rest, sep);
        }
      }
      assert s == [s[0]] + s[1..];
    }
  }

  /** A character that does not occur is counted zero times. */
  lemma {:induction false} CountAbsent(s: string, c: char)
    requires c !in s
    ensures Count(s, c) == 0
    decreases |s|
  {
    if |s| > 0 {
      CountAbsent(s[1..], c);
    }
  }

  /** A separator-free text is a single piece. */
  lemma {:induction false} SplitSingle(a: string, sep: char)
    requires sep !in a
    ensures Split(a, sep) == [a]
  {
    CountAbsent(a, sep);
    JoinSplit(a, sep);
  }

  /** Splitting stops at the first separator: the text before it is the
      first piece and the rest is split on its own. */
  lemma {:induction false} SplitAtSeparator(a: string, sep: char, rest: string)
    requires sep !in a
    ensures Split(a + [sep] + rest, sep) == [a] + Split(rest, sep)
    decreases |a|
  {
    if |a| == 0 {
      assert a + [sep] + rest == [sep] + rest;
      assert ([sep] + rest)[1..] == rest;
    } else {
      var s := a + [sep] + rest;
      assert s[0] == a[0];
      assert s[1..] == a[1..] + [sep] + rest;
      SplitAtSeparator(a[1..], sep, rest);
      assert [a[0]] + a[1..] == a;
    }
  }

  /** A separator-free text followed by nothing or by a separator is the
      first piece. */
  lemma FirstPiece(a: string, rest: string, sep: char)
    requires sep !in a
    requires rest == [] || rest[0] == sep
    ensures Split(a + rest, sep)[0] == a
  {
    if rest == [] {
      SplitSingle(a, sep);
      assert a + rest == a;
    } else {
      SplitAtSeparator(a, sep, rest[1..]);
      assert a + rest == a + [sep] + rest[1..];
    }
  }

  /** Three separator-free texts at the head of a text, each followed by a
      separator except the last, which is followed by nothing or a
      separator, are its first three pieces. */
  lemma FirstThreePieces(a: string, b: string, c: string, rest: string, sep: char)
    requires sep !in a && sep !in b && sep !in c
    requires rest == [] || rest[0] == sep
    ensures var parts := Split(a + [sep] + b + [sep] + c + rest, sep);
      |parts| >= 3 && parts[0] == a && parts[1] == b && parts[2] == c
  {
    var tail := Split(c + rest, sep);
    FirstPiece(c, rest, sep);
    SplitAtSeparator(b, sep, c + rest);
    SplitAtSeparator(a, sep, b + [sep] + (c + rest));
    assert a + [sep] + (b + [sep] + (c + rest)) == a + [sep] + b + [sep] + c + rest;
    assert Split(a + [sep] + b + [sep] + c + rest, sep) == [a, b] + tail;
  }

  /** A first piece that holds the separator joins like the two pieces it
      would split into. */
  lemma JoinMergedFirst(a: string, b: string, rest: seq<string>, sep: char)
    requires |rest| > 0
    ensures Join([a + [sep] + b] + rest, sep) == Join([a, b] + rest, sep)
  {
    assert ([a + [sep] + b] + rest)[1..] == rest;
    assert ([a, b] + rest)[1..] == [b] + rest;
    assert ([b] + rest)[1..] == rest;
  }

  /** The join of five pieces, written out. */
  lemma JoinFive(a: string, b: string, c: string, d: string, e: string, sep: char)
    ensures Join([a, b, c, d, e], sep) == a + [sep] + (b + [sep] + (c + [sep] + (d + [sep] + e)))
  {
    assert [d, e][1..] == [e];
    assert Join([d, e], sep) == d + [sep] + e;
    assert [c, d, e][1..] == [d, e];
    assert Join([c, d, e], sep) == c + [sep] + Join([d, e], sep);
    assert [b, c, d, e][1..] == [c, d, e];
    assert Join([b, c, d, e], sep) == b + [sep] + Join([c, d, e], sep);
    assert [a, b, c, d, e][1..] == [b, c, d, e];
  }

  /** Splitting the join of separator-free pieces gives the pieces back. */
  lemma {:induction false} SplitJoin(parts: seq<string>, sep: char)
    requires |parts| > 0
    requires forall i :: 0 <= i < |parts| ==> sep !in parts[i]
    ensures Split(Join(parts, sep), sep) == parts
    decreases |parts|
  {
    if |parts| == 1 {
      SplitSingle(parts[0], sep);
    } else {
      SplitJoin(parts[1..], sep);
      SplitAtSeparator(parts[0], sep, Join(parts[1..], sep));
      assert [parts[0]] + parts[1..] == parts;
    }
  }

  /** A character other than the separator occurs in a join only if it
      occurs in one of the pieces. */
  lemma {:induction false} JoinAvoids(parts: seq<string>, sep: char, c: char)
    requires c != sep
    requires forall i :: 0 <= i < |parts| ==> c !in parts[i]
    ensures c !in Join(parts, sep)
    decreases |parts|
  {
    if |parts| > 1 {
      JoinAvoids(parts[1..], sep, c);
    }
  }
}
