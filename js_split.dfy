/**
 * The parts of JavaScript's `String.prototype.split` and `Array.prototype.join`
 * that the text-reveal component and the story assembler rely on, on
 * `string` = `seq<char>`, with the round trips between them.
 *
 * `Split(s, sep)` is `s.split(sep)` for a non-empty separator: the string is cut
 * at every leftmost, non-overlapping occurrence of `sep`, so `"".split(" ")` is
 * `[""]` and consecutive separators give empty parts. `SplitChars(s)` is
 * `s.split("")`, which gives one part per character and `[]` for `""`.
 */
module JsSplit {

  /** `s.split(sep)` for a non-empty separator. */
  function Split(s: string, sep: string): (parts: seq<string>)
    requires sep != []
    ensures |parts| >= 1
    decreases |s|
  {
    if |s| < |sep| then [s]
    else if s[..|sep|] == sep then [""] + Split(s[|sep|..], sep)
    else
      var rest := Split(s[1..], sep);
      [[s[0]] + rest[0]] + rest[1..]
  }

  /** `s.split("")`: one single-character part per character of `s`. */
  function SplitChars(s: string): (parts: seq<string>)
  {
    seq(|s|, i requires 0 <= i < |s| => [s[i]])
  }

  /** `parts.join(sep)`; the join of no parts is the empty string. */
  function Join(parts: seq<string>, sep: string): string
    decreases |parts|
  {
    if parts == [] then ""
    else if |parts| == 1 then parts[0]
    else parts[0] + sep + Join(parts[1..], sep)
  }

  /** The parts written one after the other, as adjacent inline elements render them. */
  function Concat(parts: seq<string>): string
    decreases |parts|
  {
    if parts == [] then "" else parts[0] + Concat(parts[1..])
  }

  /** Number of occurrences of `c` in `s`. */
  function Occurrences(s: string, c: char): nat
  {
    multiset(s)[c]
  }

  lemma {:induction false} JoinConsChar(c: char, x: string, xs: seq<string>, sep: string)
    ensures Join([[c] + x] + xs, sep) == [c] + Join([x] + xs, sep)
  {
    if xs == [] {
    } else {
      assert ([[c] + x] + xs)[1..] == xs;
      assert ([x] + xs)[1..] == xs;
    }
  }

  /** Joining the parts of a split with the same separator gives back the string. */
  lemma {:induction false} JoinSplit(s: string, sep: string)
    requires sep != []
    ensures Join(Split(s, sep), sep) == s
    decreases |s|
  {
    if |s| < |sep| {
    } else if s[..|sep|] == sep {
      var tail := Split(s[|sep|..], sep);
      JoinSplit(s[|sep|..], sep);
      assert ([""] + tail)[1..] == tail;
      assert s == s[..|sep|] + s[|sep|..];
    } else {
      var rest := Split(s[1..], sep);
      JoinSplit(s[1..], sep);
      assert rest == [rest[0]] + rest[1..];
      JoinConsChar(s[0], rest[0], rest[1..], sep);
      assert s == [s[0]] + s[1..];
    }
  }

  /** A string that does not contain the separator's first character is one part. */
  lemma {:induction false} SplitWithoutSeparator(x: string, sep: string)
    requires sep != [] && sep[0] !in x
    ensures Split(x, sep) == [x]
    decreases |x|
  {
    if |x| < |sep| {
    } else {
      assert x[..|sep|][0] == x[0] != sep[0];
      assert sep[0] !in x[1..] by {
        assert forall k :: 0 <= k < |x[1..]| ==> x[1..][k] == x[k + 1];
      }
      SplitWithoutSeparator(x[1..], sep);
      assert x == [x[0]] + x[1..];
    }
  }

  /** Splitting `x + sep + rest` cuts exactly after `x` when `x` cannot start a separator. */
  lemma {:induction false} SplitAfterPart(x: string, sep: string, rest: string)
    requires sep != [] && sep[0] !in x
    ensures Split(x + sep + rest, sep) == [x] + Split(rest, sep)
    decreases |x|
  {
    var s := x + sep + rest;
    if x == [] {
      assert s == sep + rest;
      assert s[..|sep|] == sep;
      assert s[|sep|..] == rest;
    } else {
      assert s[..|sep|][0] == x[0] != sep[0];
      assert sep[0] !in x[1..] by {
        assert forall k :: 0 <= k < |x[1..]| ==> x[1..][k] == x[k + 1];
      }
      assert s[1..] == x[1..] + sep + rest;
      SplitAfterPart(x[1..], sep, rest);
      assert [s[0]] + x[1..] == x;
    }
  }

  /**
   * Splitting a join gives back the parts, provided no part contains the
   * separator's first character (so no part can hide a separator).
   */
  lemma {:induction false} SplitJoin(parts: seq<string>, sep: string)
    requires sep != [] && |parts| >= 1
    requires forall k :: 0 <= k < |parts| ==> sep[0] !in parts[k]
    ensures Split(Join(parts, sep), sep) == parts
    decreases |parts|
  {
    if |parts| == 1 {
      SplitWithoutSeparator(parts[0], sep);
    } else {
      SplitJoin(parts[1..], sep);
      SplitAfterPart(parts[0], sep, Join(parts[1..], sep));
      assert parts == [parts[0]] + parts[1..];
    }
  }

  /** Appending one part to a non-empty list adds one separator and the part. */
  lemma {:induction false} JoinSnoc(parts: seq<string>, x: string, sep: string)
    requires |parts| >= 1
    ensures Join(parts + [x], sep) == Join(parts, sep) + sep + x
    decreases |parts|
  {
    if |parts| == 1 {
      assert (parts + [x])[1..] == [x];
    } else {
      assert (parts + [x])[1..] == parts[1..] + [x];
      JoinSnoc(parts[1..], x, sep);
    }
  }

  /** A one-character separator cuts a string into one more part than it occurs. */
  lemma {:induction false} SplitCount(s: string, c: char)
    ensures |Split(s, [c])| == Occurrences(s, c) + 1
    decreases |s|
  {
    if |s| < 1 {
      assert s == [];
    } else {
      assert s == [s[0]] + s[1..];
      assert multiset(s) == multiset([s[0]]) + multiset(s[1..]);
      SplitCount(s[1..], c);
      assert s[..1] == [s[0]];
      assert s[1..] == s[|[c]|..];
    }
  }

  /** Every part of a split on a one-character separator is free of that character. */
  lemma {:induction false} SplitPartsFree(s: string, c: char)
    ensures forall k :: 0 <= k < |Split(s, [c])| ==> c !in Split(s, [c])[k]
    decreases |s|
  {
    if |s| < 1 {
      assert s == [];
    } else {
      SplitPartsFree(s[1..], c);
      assert s[..1] == [s[0]];
    }
  }

  /** Concatenating `s.split("")` gives back `s`. */
  lemma {:induction false} ConcatSplitChars(s: string)
    ensures Concat(SplitChars(s)) == s
    decreases |s|
  {
    if s != [] {
      ConcatSplitChars(s[1..]);
      assert SplitChars(s)[1..] == SplitChars(s[1..]);
      assert s == [s[0]] + s[1..];
    }
  }
}
