/**
 * The parts of Go's `strings` package and byte strings that the service
 * relies on: joining and splitting on a separator, prefix and suffix tests,
 * and ASCII lower-casing.
 */
module Strings {

  /** A Go byte. */
  newtype byte = x: int | 0 <= x < 256

  /** A Go string taken as the bytes it holds. */
  type Bytes = seq<byte>

  /** Number of occurrences of `c` in `s`. */
  function Count(s: string, c: char): nat
  {
    if s == [] then 0 else (if s[0] == c then 1 else 0) + Count(s[1..], c)
  }

  /** Total number of occurrences of `c` in all of `xs`. */
  function CountAll(xs: seq<string>, c: char): nat
  {
    if xs == [] then 0 else Count(xs[0], c) + CountAll(xs[1..], c)
  }

  /** `strings.Join(xs, sep)` for a one-character separator. */
  function Join(xs: seq<string>, sep: char): string
  {
    if xs == [] then ""
    else if |xs| == 1 then xs[0]
    else xs[0] + [sep] + Join(xs[1..], sep)
  }

  /**
   * `strings.Split(s, sep)` for a one-character separator: the pieces between
   * separators, so there is one piece more than there are separators, and the
   * empty string splits into one empty piece.
   */
  function Split(s: string, sep: char): (r: seq<string>)
    ensures |r| == Count(s, sep) + 1
    ensures forall i :: 0 <= i < |r| ==> sep !in r[i]
  {
    if s == [] then [""]
    else
      var rest := Split(s[1..], sep);
      if s[0] == sep then [""] + rest else [[s[0]] + rest[0]] + rest[1..]
  }

  lemma {:induction false} CountAppend(a: string, b: string, c: char)
    ensures Count(a + b, c) == Count(a, c) + Count(b, c)
  {
    if a == [] {
      assert a + b == b;
    } else {
      assert (a + b)[0] == a[0];
      assert (a + b)[1..] == a[1..] + b;
      CountAppend(a[1..], b, c);
    }
  }

  lemma {:induction false} CountZero(s: string, c: char)
    ensures Count(s, c) == 0 <==> c !in s
  {
    if s != [] {
      CountZero(s[1..], c);
      assert s == [s[0]] + s[1..];
    }
  }

  /** Splitting a separator-free piece followed by a separator and more text. */
  lemma {:induction false} SplitPieceThenRest(a: string, b: string, sep: char)
    requires sep !in a
    ensures Split(a + [sep] + b, sep) == [a] + Split(b, sep)
  {
    if a == [] {
      assert a + [sep] + b == [sep] + b;
      assert ([sep] + b)[1..] == b;
    } else {
      assert (a + [sep] + b)[1..] == a[1..] + [sep] + b;
      SplitPieceThenRest(a[1..], b, sep);
      assert [a[0]] + a[1..] == a;
    }
  }

  /** A separator-free string splits into itself. */
  lemma {:induction false} SplitNoSeparator(a: string, sep: char)
    requires sep !in a
    ensures Split(a, sep) == [a]
  {
    if a != [] {
      SplitNoSeparator(a[1..], sep);
      assert [a[0]] + a[1..] == a;
    }
  }

  lemma {:induction false} CountJoin(xs: seq<string>, sep: char)
    requires xs != []
    ensures Count(Join(xs, sep), sep) == CountAll(xs, sep) + |xs| - 1
  {
    if |xs| > 1 {
      CountJoin(xs[1..], sep);
      CountAppend(xs[0] + [sep], Join(xs[1..], sep), sep);
      CountAppend(xs[0], [sep], sep);
      assert Count([sep], sep) == 1 by { assert [sep][1..] == []; }
    } else {
      assert xs[1..] == [];
    }
  }

  /**
   * Joining on a separator and splitting again gives back the list exactly
   * when the list is non-empty and no entry contains the separator.
   */
  lemma {:induction false} SplitJoin(xs: seq<string>, sep: char)
    ensures Split(Join(xs, sep), sep) == xs <==> (xs != [] && forall i :: 0 <= i < |xs| ==> sep !in xs[i])
  {
    if xs == [] {
      assert Split("", sep) == [""];
    } else if forall i :: 0 <= i < |xs| ==> sep !in xs[i] {
      SplitJoinClean(xs, sep);
    } else {
      var i :| 0 <= i < |xs| && sep in xs[i];
      CountJoin(xs, sep);
      CountAllPositive(xs, sep, i);
    }
  }

  lemma {:induction false} SplitJoinClean(xs: seq<string>, sep: char)
    requires xs != [] && forall i :: 0 <= i < |xs| ==> sep !in xs[i]
    ensures Split(Join(xs, sep), sep) == xs
  {
    if |xs| == 1 {
      SplitNoSeparator(xs[0], sep);
    } else {
      SplitJoinClean(xs[1..], sep);
      SplitPieceThenRest(xs[0], Join(xs[1..], sep), sep);
      assert [xs[0]] + xs[1..] == xs;
    }
  }

  /** Splitting and joining again gives back the string, whatever it holds. */
  lemma {:induction false} JoinSplit(s: string, sep: char)
    ensures Join(Split(s, sep), sep) == s
  {
    if s != [] {
      var rest := Split(s[1..], sep);
      JoinSplit(s[1..], sep);
      if s[0] == sep {
        assert Split(s, sep) == [""] + rest;
        assert ([""] + rest)[1..] == rest;
        assert Join([""] + rest, sep) == "" + [sep] + Join(rest, sep);
        assert s == [s[0]] + s[1..];
      } else {
        var xs := [[s[0]] + rest[0]] + rest[1..];
        assert Split(s, sep) == xs;
        assert xs[1..] == rest[1..];
        if |rest| == 1 {
          assert Join(xs, sep) == [s[0]] + rest[0];
          assert Join(rest, sep) == rest[0];
        } else {
          assert Join(xs, sep) == [s[0]] + rest[0] + [sep] + Join(rest[1..], sep);
          assert Join(rest, sep) == rest[0] + [sep] + Join(rest[1..], sep);
        }
        assert s == [s[0]] + s[1..];
      }
    }
  }

  lemma {:induction false} CountAllPositive(xs: seq<string>, sep: char, i: int)
    requires 0 <= i < |xs| && sep in xs[i]
    ensures CountAll(xs, sep) >= 1
  {
    if i == 0 {
      CountZero(xs[0], sep);
    } else {
      CountAllPositive(xs[1..], sep, i - 1);
    }
  }

  predicate HasPrefix(s: string, prefix: string)
  {
    |prefix| <= |s| && s[..|prefix|] == prefix
  }

  predicate HasSuffix(s: string, suffix: string)
  {
    |suffix| <= |s| && s[|s| - |suffix|..] == suffix
  }

  /** Lower-casing of one character, for the ASCII letters. */
  function LowerChar(c: char): char
  {
    if 'A' <= c <= 'Z' then (c as int - 'A' as int + 'a' as int) as char else c
  }

  /** `strings.ToLower`, restricted to ASCII: each letter is lowered in place, so the length is kept. */
  function ToLower(s: string): (r: string)
    ensures |r| == |s|
    ensures forall i :: 0 <= i < |s| ==> r[i] == LowerChar(s[i])
  {
    if s == [] then [] else [LowerChar(s[0])] + ToLower(s[1..])
  }
}
