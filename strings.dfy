/**
 * String utilities behind the formatter: the character filter that
 * `String.replace` with a global character-class pattern and an empty
 * replacement performs, and the splitting and joining used by the parsers
 * that invert the formatter's output.
 */
module Strings {
  import opened Wrappers

  /**
   * The characters of `s` that satisfy `keep`, in their original order:
   * `s.replace(/[^…]/g, '')` where the class holds the characters kept.
   */
  function Filter(s: string, keep: char -> bool): string
  {
    if s == [] then []
    else (if keep(s[0]) then [s[0]] else []) + Filter(s[1..], keep)
  }

  /** Only characters that pass the filter survive, and none is added. */
  lemma {:induction false} FilterKeepsOnly(s: string, keep: char -> bool)
    ensures |Filter(s, keep)| <= |s|
    ensures forall i :: 0 <= i < |Filter(s, keep)| ==> keep(Filter(s, keep)[i])
  {
    if s != [] {
      FilterKeepsOnly(s[1..], keep);
    }
  }

  /** Filtering distributes over concatenation. */
  lemma {:induction false} FilterConcat(a: string, b: string, keep: char -> bool)
    ensures Filter(a + b, keep) == Filter(a, keep) + Filter(b, keep)
  {
    if a != [] {
      assert (a + b)[1..] == a[1..] + b;
      FilterConcat(a[1..], b, keep);
    } else {
      assert a + b == b;
    }
  }

  /** A string whose characters all pass the filter is left unchanged. */
  lemma {:induction false} FilterKeepsAll(s: string, keep: char -> bool)
    requires forall i :: 0 <= i < |s| ==> keep(s[i])
    ensures Filter(s, keep) == s
  {
    if s != [] {
      FilterKeepsAll(s[1..], keep);
    }
  }

  /** Filtering twice is filtering once. */
  lemma FilterIdempotent(s: string, keep: char -> bool)
    ensures Filter(Filter(s, keep), keep) == Filter(s, keep)
  {
    FilterKeepsOnly(s, keep);
    FilterKeepsAll(Filter(s, keep), keep);
  }

  /**
   * The filter removes exactly the rejected characters: every kept character
   * occurs as often as in `s`, and no rejected one occurs at all.
   */
  lemma {:induction false} FilterCounts(s: string, keep: char -> bool)
    ensures forall c :: multiset(Filter(s, keep))[c] == if keep(c) then multiset(s)[c] else 0
  {
    if s != [] {
      FilterCounts(s[1..], keep);
      assert s == [s[0]] + s[1..];
      assert multiset(s) == multiset([s[0]]) + multiset(s[1..]);
    }
  }

  /** `r` is obtained from `s` by deleting characters, keeping the order of the rest. */
  predicate IsSubsequence(r: string, s: string)
    decreases |s|
  {
    if r == [] then true
    else if s == [] then false
    else (r[0] == s[0] && IsSubsequence(r[1..], s[1..])) || IsSubsequence(r, s[1..])
  }

  /** The filter keeps the surviving characters in their original order. */
  lemma {:induction false} FilterIsSubsequence(s: string, keep: char -> bool)
    ensures IsSubsequence(Filter(s, keep), s)
  {
    if s != [] {
      FilterIsSubsequence(s[1..], keep);
      var r := Filter(s, keep);
      if keep(s[0]) {
        assert r[0] == s[0] && r[1..] == Filter(s[1..], keep);
      } else {
        assert r == Filter(s[1..], keep);
      }
    }
  }

  /**
   * The part of `s` before the first `sep` and the part after it, or `None`
   * when `sep` does not occur.
   */
  function SplitFirst(s: string, sep: char): (r: Option<(string, string)>)
    ensures r.None? <==> sep !in s
    ensures r.Some? ==> s == r.value.0 + [sep] + r.value.1 && sep !in r.value.0
  {
    if s == [] then None
    else if s[0] == sep then Some(([], s[1..]))
    else match SplitFirst(s[1..], sep)
      case None => None
      case Some((a, b)) => Some(([s[0]] + a, b))
  }

  /** Splitting at the first separator undoes gluing two parts with it, if the first has none. */
  lemma {:induction false} SplitFirstOfJoin(a: string, sep: char, b: string)
    requires sep !in a
    ensures SplitFirst(a + [sep] + b, sep) == Some((a, b))
  {
    if a != [] {
      assert (a + [sep] + b)[1..] == a[1..] + [sep] + b;
      SplitFirstOfJoin(a[1..], sep, b);
      assert [a[0]] + a[1..] == a;
    }
  }

  /** `prefix` removed from the front of `s`, or `None` when `s` does not start with it. */
  function DropPrefix(prefix: string, s: string): (r: Option<string>)
    ensures r.Some? <==> prefix <= s
    ensures r.Some? ==> s == prefix + r.value
  {
    if prefix <= s then Some(s[|prefix|..]) else None
  }

  lemma DropPrefixOfConcat(prefix: string, s: string)
    ensures DropPrefix(prefix, prefix + s) == Some(s)
  {
    assert prefix <= prefix + s;
    assert (prefix + s)[|prefix|..] == s;
  }

  /** `s` cut at every `sep`, as JavaScript's `s.split(sep)`: never empty. */
  function Split(s: string, sep: char): (r: seq<string>)
    ensures |r| >= 1
    ensures forall i :: 0 <= i < |r| ==> sep !in r[i]
    decreases |s|
  {
    match SplitFirst(s, sep)
    case None => [s]
    case Some((a, b)) => [a] + Split(b, sep)
  }

  /** The lines glued with `sep` between consecutive ones, as `lines.join(sep)`. */
  function Join(lines: seq<string>, sep: char): string
  {
    if |lines| == 0 then ""
    else if |lines| == 1 then lines[0]
    else lines[0] + [sep] + Join(lines[1..], sep)
  }

  /** Joining with one more line at the end appends the separator and that line. */
  lemma {:induction false} JoinSnoc(lines: seq<string>, line: string, sep: char)
    requires |lines| >= 1
    ensures Join(lines + [line], sep) == Join(lines, sep) + [sep] + line
  {
    if |lines| > 1 {
      assert (lines + [line])[1..] == lines[1..] + [line];
      JoinSnoc(lines[1..], line, sep);
    } else {
      assert (lines + [line])[1..] == [line];
    }
  }

  /** Splitting undoes joining when no line holds the separator. */
  lemma {:induction false} SplitJoin(lines: seq<string>, sep: char)
    requires |lines| >= 1
    requires forall i :: 0 <= i < |lines| ==> sep !in lines[i]
    ensures Split(Join(lines, sep), sep) == lines
  {
    if |lines| > 1 {
      SplitFirstOfJoin(lines[0], sep, Join(lines[1..], sep));
      SplitJoin(lines[1..], sep);
    }
  }

  /** There is one more piece than there are separators. */
  lemma {:induction false} SplitLength(s: string, sep: char)
    ensures |Split(s, sep)| == Count(s, sep) + 1
    decreases |s|
  {
    match SplitFirst(s, sep)
    case None =>
      CountAbsent(s, sep);
    case Some((a, b)) =>
      SplitLength(b, sep);
      CountConcat(a + [sep], b, sep);
      CountConcat(a, [sep], sep);
      CountAbsent(a, sep);
  }

  // ---- counting characters ----

  /** The number of occurrences of `c` in `s`. */
  function Count(s: string, c: char): nat
  {
    if s == [] then 0 else (if s[0] == c then 1 else 0) + Count(s[1..], c)
  }

  lemma {:induction false} CountConcat(a: string, b: string, c: char)
    ensures Count(a + b, c) == Count(a, c) + Count(b, c)
  {
    if a != [] {
      assert (a + b)[1..] == a[1..] + b;
      CountConcat(a[1..], b, c);
    } else {
      assert a + b == b;
    }
  }

  lemma {:induction false} CountAbsent(s: string, c: char)
    ensures c !in s <==> Count(s, c) == 0
  {
    if s != [] {
      CountAbsent(s[1..], c);
      assert s == [s[0]] + s[1..];
    }
  }

  /** `Count` is the multiplicity of `c` in the multiset of `s`. */
  lemma {:induction false} CountIsMultiplicity(s: string, c: char)
    ensures Count(s, c) == multiset(s)[c]
  {
    if s != [] {
      CountIsMultiplicity(s[1..], c);
      assert s == [s[0]] + s[1..];
      assert multiset(s) == multiset([s[0]]) + multiset(s[1..]);
    }
  }

  /** The number of line feeds in a string. */
  function LineFeeds(s: string): nat
  {
    Count(s, '\n')
  }

  /** Appending a line feed and a line adds one line feed and the line's own. */
  lemma LineFeedsSnoc(init: string, line: string)
    ensures LineFeeds(init + "\n" + line) == LineFeeds(init) + 1 + LineFeeds(line)
  {
    CountConcat(init + "\n", line, '\n');
    CountConcat(init, "\n", '\n');
  }

  lemma NoLineFeeds(s: string)
    requires '\n' !in s
    ensures LineFeeds(s) == 0
  {
    CountAbsent(s, '\n');
  }

  /** A line made of a tag and a field holds the field's line feeds. */
  lemma TaggedLineFeeds(tag: string, v: string)
    requires '\n' !in tag
    ensures LineFeeds(tag + v) == LineFeeds(v)
  {
    CountConcat(tag, v, '\n');
    NoLineFeeds(tag);
  }

  /** A line of a tag and two fields joined by a separator holds the fields' line feeds. */
  lemma PairLineFeeds(tag: string, x: string, sep: string, y: string)
    requires '\n' !in tag && '\n' !in sep
    ensures LineFeeds(tag + x + sep + y) == LineFeeds(x) + LineFeeds(y)
  {
    CountConcat(tag + x + sep, y, '\n');
    CountConcat(tag + x, sep, '\n');
    TaggedLineFeeds(tag, x);
    NoLineFeeds(sep);
  }

  lemma JoinSix(l0: string, l1: string, l2: string, l3: string, l4: string, l5: string)
    ensures l0 + "\n" + l1 + "\n" + l2 + "\n" + l3 + "\n" + l4 + "\n" + l5
            == Join([l0, l1, l2, l3, l4, l5], '\n')
  {
    assert [l0] + [l1] == [l0, l1];
    JoinSnoc([l0], l1, '\n');
    assert [l0, l1] + [l2] == [l0, l1, l2];
    JoinSnoc([l0, l1], l2, '\n');
    assert [l0, l1, l2] + [l3] == [l0, l1, l2, l3];
    JoinSnoc([l0, l1, l2], l3, '\n');
    assert [l0, l1, l2, l3] + [l4] == [l0, l1, l2, l3, l4];
    JoinSnoc([l0, l1, l2, l3], l4, '\n');
    assert [l0, l1, l2, l3, l4] + [l5] == [l0, l1, l2, l3, l4, l5];
    JoinSnoc([l0, l1, l2, l3, l4], l5, '\n');
  }

  lemma JoinEight(l0: string, l1: string, l2: string, l3: string, l4: string, l5: string,
                  l6: string, l7: string)
    ensures l0 + "\n" + l1 + "\n" + l2 + "\n" + l3 + "\n" + l4 + "\n" + l5 + "\n" + l6 + "\n" + l7
            == Join([l0, l1, l2, l3, l4, l5, l6, l7], '\n')
  {
    JoinSix(l0, l1, l2, l3, l4, l5);
    assert [l0, l1, l2, l3, l4, l5] + [l6] == [l0, l1, l2, l3, l4, l5, l6];
    JoinSnoc([l0, l1, l2, l3, l4, l5], l6, '\n');
    assert [l0, l1, l2, l3, l4, l5, l6] + [l7] == [l0, l1, l2, l3, l4, l5, l6, l7];
    JoinSnoc([l0, l1, l2, l3, l4, l5, l6], l7, '\n');
  }
}
