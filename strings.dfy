/**
  Python string operations that the OpenAPI split/combine tool relies on:
  `str.split(sep)`, `sep.join(parts)`, `str.replace(pat, "")`,
  `str.endswith` and `"%-Ns"` left justification.
*/
module Strings {

  /**
    Python's whitespace (`str.isspace`, and `\s` in a `str` pattern):
    tab, line feed, vertical tab, form feed, carriage return, the four
    information separators, space, next line, no-break space and the Unicode
    space separators, line separator and paragraph separator.
  */
  predicate IsSpace(c: char) {
    var n := c as int;
    || (9 <= n <= 13) || (28 <= n <= 32) || n == 0x85 || n == 0xA0 || n == 0x1680
    || (0x2000 <= n <= 0x200A) || n == 0x2028 || n == 0x2029 || n == 0x202F
    || n == 0x205F || n == 0x3000
  }

  /** The first index at or after `i` that does not hold whitespace. */
  function SkipSpace(s: string, i: nat): (j: nat)
    requires i <= |s|
    ensures i <= j <= |s|
    ensures j == |s| || !IsSpace(s[j])
    ensures forall k :: i <= k < j ==> IsSpace(s[k])
    decreases |s| - i
  {
    if i == |s| || !IsSpace(s[i]) then i else SkipSpace(s, i + 1)
  }

  predicate IsPrefix(p: string, s: string) {
    |p| <= |s| && s[..|p|] == p
  }

  predicate EndsWith(s: string, suffix: string) {
    |suffix| <= |s| && s[|s| - |suffix|..] == suffix
  }

  /** `pat` occurs in `s` starting at index `i`. */
  predicate OccursAt(s: string, pat: string, i: nat) {
    i + |pat| <= |s| && s[i..i + |pat|] == pat
  }

  /** Python's `pat in s` for two strings. */
  predicate Contains(s: string, pat: string) {
    exists i: nat :: i <= |s| && OccursAt(s, pat, i)
  }

  /**
    Python's `s.split(sep)` for a one-character separator: the pieces between
    separators, so there is always at least one piece (the empty string gives
    `[""]`) and no piece holds the separator.
  */
  function Split(s: string, sep: char): (parts: seq<string>)
    ensures |parts| >= 1
    ensures forall i :: 0 <= i < |parts| ==> sep !in parts[i]
    ensures |parts| == 1 <==> sep !in s
    ensures IsPrefix(parts[0], s)
  {
    if s == [] then [[]]
    else
      var rest := Split(s[1..], sep);
      if s[0] == sep then [[]] + rest
      else [[s[0]] + rest[0]] + rest[1..]
  }

  /** Python's `sep.join(parts)` for a one-character separator. */
  function Join(parts: seq<string>, sep: char): string {
    if |parts| == 0 then []
    else if |parts| == 1 then parts[0]
    else parts[0] + [sep] + Join(parts[1..], sep)
  }

  /** Joining the pieces of a split gives back the original text. */
  lemma {:induction false} JoinSplit(s: string, sep: char)
    ensures Join(Split(s, sep), sep) == s
  {
    if s != [] {
      JoinSplit(s[1..], sep);
      var rest := Split(s[1..], sep);
      if s[0] == sep {
        assert Join([[]] + rest, sep) == [sep] + Join(rest, sep);
      } else {
        var parts := [[s[0]] + rest[0]] + rest[1..];
        if |rest| == 1 {
          assert Join(parts, sep) == [s[0]] + rest[0];
        } else {
          assert parts[1..] == rest[1..];
          assert Join(parts, sep) == [s[0]] + rest[0] + [sep] + Join(rest[1..], sep);
        }
      }
    }
  }

  /** Splitting `a + sep + t` where `a` holds no separator splits off `a`. */
  lemma {:induction false} SplitAfterPiece(a: string, t: string, sep: char)
    requires sep !in a
    ensures Split(a + [sep] + t, sep) == [a] + Split(t, sep)
  {
    if a == [] {
      assert ([] + [sep] + t)[1..] == t;
    } else {
      SplitAfterPiece(a[1..], t, sep);
      assert (a + [sep] + t)[1..] == a[1..] + [sep] + t;
      assert [a[0]] + a[1..] == a;
    }
  }

  /** A text with no separator is a single piece. */
  lemma {:induction false} SplitSinglePiece(a: string, sep: char)
    requires sep !in a
    ensures Split(a, sep) == [a]
  {
    if a != [] {
      SplitSinglePiece(a[1..], sep);
      assert [a[0]] + a[1..] == a;
    }
  }

  /** Splitting a join of separator-free pieces gives back the pieces. */
  lemma {:induction false} SplitJoin(parts: seq<string>, sep: char)
    requires |parts| >= 1
    requires forall i :: 0 <= i < |parts| ==> sep !in parts[i]
    ensures Split(Join(parts, sep), sep) == parts
  {
    if |parts| == 1 {
      SplitSinglePiece(parts[0], sep);
    } else {
      SplitJoin(parts[1..], sep);
      SplitAfterPiece(parts[0], Join(parts[1..], sep), sep);
      assert [parts[0]] + parts[1..] == parts;
    }
  }

  /** Three separator-free pieces joined by the separator split back apart. */
  lemma SplitThree(a: string, b: string, c: string, sep: char)
    requires sep !in a && sep !in b && sep !in c
    ensures Split(a + [sep] + b + [sep] + c, sep) == [a, b, c]
  {
    var t := b + [sep] + c;
    SplitSinglePiece(c, sep);
    SplitAfterPiece(b, c, sep);
    assert Split(t, sep) == [b, c];
    assert a + [sep] + b + [sep] + c == a + [sep] + t;
    SplitAfterPiece(a, t, sep);
  }

  /** Appending an empty piece adds one trailing separator. */
  lemma {:induction false} JoinAppendEmpty(parts: seq<string>, sep: char)
    requires |parts| >= 1
    ensures Join(parts + [[]], sep) == Join(parts, sep) + [sep]
  {
    if |parts| == 1 {
      assert Join(parts + [[]], sep) == parts[0] + [sep] + Join([[]], sep);
    } else {
      JoinAppendEmpty(parts[1..], sep);
      assert (parts + [[]])[1..] == parts[1..] + [[]];
    }
  }

  /** Lines, each followed by a newline, as a file stores them. */
  function Lines(ls: seq<string>): (s: string)
    ensures |s| >= |ls|
  {
    if ls == [] then [] else ls[0] + "\n" + Lines(ls[1..])
  }

  /** Newline-free lines written ahead of a text split back off it. */
  lemma {:induction false} SplitLines(ls: seq<string>, rest: string)
    requires forall i :: 0 <= i < |ls| ==> '\n' !in ls[i]
    ensures Split(Lines(ls) + rest, '\n') == ls + Split(rest, '\n')
  {
    if ls != [] {
      SplitLines(ls[1..], rest);
      LinesCons(ls, rest);
      SplitAfterPiece(ls[0], Lines(ls[1..]) + rest, '\n');
      var tail := Split(rest, '\n');
      forall i | 0 <= i < |ls| + |tail| ensures ([ls[0]] + (ls[1..] + tail))[i] == (ls + tail)[i] {
      }
      assert [ls[0]] + (ls[1..] + tail) == ls + tail;
    } else {
      assert Lines(ls) + rest == rest;
    }
  }

  /** The first line of a non-empty block, split off ahead of the others and what follows. */
  lemma LinesCons(ls: seq<string>, rest: string)
    requires ls != []
    ensures Lines(ls) + rest == ls[0] + "\n" + (Lines(ls[1..]) + rest)
    ensures |ls| > 1 && ls[1] != [] ==> (Lines(ls[1..]) + rest)[0] == ls[1][0]
  {
    if |ls| > 1 {
      assert ls[1..][0] == ls[1];
    }
  }

  /** Lines of two lists, one after the other. */
  lemma {:induction false} LinesAppend(a: seq<string>, b: seq<string>)
    ensures Lines(a + b) == Lines(a) + Lines(b)
  {
    if a == [] {
      assert a + b == b;
    } else {
      LinesAppend(a[1..], b);
      LinesCons(a, Lines(b));
      assert (a + b)[0] == a[0] && (a + b)[1..] == a[1..] + b;
    }
  }

  /** A non-empty list of lines joined by newlines, plus a final newline, is its lines. */
  lemma {:induction false} JoinLines(ls: seq<string>)
    requires |ls| >= 1
    ensures Join(ls, '\n') + "\n" == Lines(ls)
  {
    if |ls| == 1 {
      assert ls[1..] == [];
    } else {
      JoinLines(ls[1..]);
    }
  }

  /** A character absent from a text is absent from each of its pieces. */
  lemma {:induction false} SplitAvoids(s: string, sep: char, c: char)
    requires c !in s
    ensures forall i :: 0 <= i < |Split(s, sep)| ==> c !in Split(s, sep)[i]
  {
    if s != [] {
      SplitAvoids(s[1..], sep, c);
      assert c !in s[1..];
    }
  }

  /** A character that is neither the separator nor in any piece is not in their join. */
  lemma {:induction false} JoinAvoids(parts: seq<string>, sep: char, c: char)
    requires c != sep
    requires forall i :: 0 <= i < |parts| ==> c !in parts[i]
    ensures c !in Join(parts, sep)
  {
    if |parts| > 1 {
      JoinAvoids(parts[1..], sep, c);
    }
  }

  /**
    Python's text-mode `read()` with universal newlines: a "\r\n" pair and a
    lone "\r" each become one "\n"; nothing else changes.
  */
  function ReadText(s: string): (r: string)
    ensures '\r' !in r
    ensures |r| <= |s|
    decreases |s|
  {
    if s == [] then []
    else if s[0] == '\r' then "\n" + ReadText(if |s| > 1 && s[1] == '\n' then s[2..] else s[1..])
    else [s[0]] + ReadText(s[1..])
  }

  /** Text without carriage returns reads back unchanged. */
  lemma {:induction false} ReadTextPlain(s: string)
    requires '\r' !in s
    ensures ReadText(s) == s
  {
    if s != [] {
      ReadTextPlain(s[1..]);
      assert [s[0]] + s[1..] == s;
    }
  }

  /**
    Python's `s.replace(pat, "")`: every non-overlapping occurrence of `pat`,
    found from left to right, is removed.
  */
  function RemoveAll(s: string, pat: string): (r: string)
    requires pat != []
    ensures |r| <= |s|
    decreases |s|
  {
    if |s| == 0 then []
    else if IsPrefix(pat, s) then RemoveAll(s[|pat|..], pat)
    else [s[0]] + RemoveAll(s[1..], pat)
  }

  /** Removing a pattern that does not occur changes nothing. */
  lemma {:induction false} RemoveAllAbsent(s: string, pat: string)
    requires pat != []
    requires !Contains(s, pat)
    ensures RemoveAll(s, pat) == s
    decreases |s|
  {
    if |s| > 0 {
      assert !OccursAt(s, pat, 0);
      assert !IsPrefix(pat, s);
      if Contains(s[1..], pat) {
        var i: nat :| i <= |s[1..]| && OccursAt(s[1..], pat, i);
        assert s[i + 1..i + 1 + |pat|] == s[1..][i..i + |pat|];
        assert OccursAt(s, pat, i + 1);
      }
      RemoveAllAbsent(s[1..], pat);
      assert [s[0]] + s[1..] == s;
    }
  }

  /** A leading occurrence of the pattern is dropped. */
  lemma RemoveAllLeading(pat: string, t: string)
    requires pat != []
    ensures RemoveAll(pat + t, pat) == RemoveAll(t, pat)
  {
    assert IsPrefix(pat, pat + t);
    assert (pat + t)[|pat|..] == t;
  }

  /**
    Python's `"%-*s" % (width, s)`: `s` left-justified in a field of at least
    `width` characters, padded with spaces and never truncated.
  */
  function PadRight(s: string, width: nat): (r: string)
    ensures |r| == if |s| >= width then |s| else width
    ensures r[..|s|] == s
    ensures forall i :: |s| <= i < |r| ==> r[i] == ' '
  {
    if |s| >= width then s else s + seq(width - |s|, _ => ' ')
  }

}
