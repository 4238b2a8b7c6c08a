/** The pieces of Python's `str` behaviour that chatblade relies on: `sep.join`,
    `strip`, `splitlines`, substring search and the ordering `sorted` uses. */
module Strings {
  import opened Wrappers

  /** `sep.join(parts)`. */
  function Join(parts: seq<string>, sep: string): (r: string)
    ensures parts == [] ==> r == ""
    ensures parts != [] ==> parts[0] <= r
  {
    if |parts| == 0 then ""
    else if |parts| == 1 then parts[0]
    else parts[0] + sep + Join(parts[1..], sep)
  }

  /** Joining is the same built from the right: one more part adds the separator and it. */
  lemma {:induction false} JoinSnoc(parts: seq<string>, x: string, sep: string)
    requires parts != []
    ensures Join(parts + [x], sep) == Join(parts, sep) + sep + x
    decreases |parts|
  {
    var longer := parts + [x];
    assert longer[0] == parts[0] && longer[1..] == parts[1..] + [x];
    if |parts| == 1 {
      assert longer[1..] == [x];
    } else {
      JoinSnoc(parts[1..], x, sep);
      assert Join(longer, sep) == parts[0] + sep + (Join(parts[1..], sep) + sep + x);
    }
  }

  /** With a non-empty separator, a join is empty only when there is nothing to join
      or a single empty part. */
  /** With no separator, joining is plain concatenation: the first part, then the rest. */
  lemma JoinNoSeparator(parts: seq<string>)
    requires parts != []
    ensures Join(parts, "") == parts[0] + Join(parts[1..], "")
  {
    if |parts| == 1 {
      assert parts[0] + "" == parts[0];
    }
  }

  lemma {:induction false} JoinEmpty(parts: seq<string>, sep: string)
    requires sep != ""
    ensures Join(parts, sep) == "" <==> |parts| == 0 || (|parts| == 1 && parts[0] == "")
  {
    if |parts| > 1 {
      assert |Join(parts, sep)| >= |sep|;
    }
  }

  /** `c.isspace()`: the characters `str.strip()` removes. */
  predicate IsSpace(c: char) {
    || c == ' ' || c == '\t' || c == '\n' || c == '\r'
    || c == '\U{000B}' || c == '\U{000C}'
    || ('\U{001C}' <= c <= '\U{001F}')
    || c == '\U{0085}' || c == '\U{00A0}' || c == '\U{1680}'
    || ('\U{2000}' <= c <= '\U{200A}')
    || c == '\U{2028}' || c == '\U{2029}' || c == '\U{202F}' || c == '\U{205F}' || c == '\U{3000}'
  }

  /** Number of whitespace characters at the start of `s`. */
  function LeadingSpaces(s: string): (n: nat)
    ensures n <= |s|
    ensures forall i :: 0 <= i < n ==> IsSpace(s[i])
    ensures n < |s| ==> !IsSpace(s[n])
  {
    if s != "" && IsSpace(s[0]) then 1 + LeadingSpaces(s[1..]) else 0
  }

  function TrimEnd(s: string): (r: string)
    ensures |r| <= |s| && r == s[..|r|]
    ensures r != "" ==> !IsSpace(r[|r| - 1])
    ensures forall i :: |r| <= i < |s| ==> IsSpace(s[i])
  {
    if s != "" && IsSpace(s[|s| - 1]) then TrimEnd(s[..|s| - 1]) else s
  }

  /** `s.strip()`: the slice of `s` left after removing whitespace at both ends. */
  function Strip(s: string): (r: string)
    ensures r == "" <==> forall i :: 0 <= i < |s| ==> IsSpace(s[i])
    ensures r != "" ==> !IsSpace(r[0]) && !IsSpace(r[|r| - 1])
    ensures var lo := LeadingSpaces(s);
            lo + |r| <= |s| && r == s[lo..lo + |r|]
            && forall i :: lo + |r| <= i < |s| ==> IsSpace(s[i])
  {
    var lo := LeadingSpaces(s);
    var r := TrimEnd(s[lo..]);
    assert r != "" ==> r[0] == s[lo];
    r
  }

  /** The line boundaries of `str.splitlines()`. */
  predicate IsLineBreak(c: char) {
    || c == '\n' || c == '\r' || c == '\U{000B}' || c == '\U{000C}'
    || c == '\U{001C}' || c == '\U{001D}' || c == '\U{001E}'
    || c == '\U{0085}' || c == '\U{2028}' || c == '\U{2029}'
  }

  /** Index of the first line boundary at or after `from`, or `|s|` when there is none. */
  function BreakIndex(s: string, from: nat): (i: nat)
    requires from <= |s|
    ensures from <= i <= |s|
    ensures i < |s| ==> IsLineBreak(s[i])
    ensures forall k :: from <= k < i ==> !IsLineBreak(s[k])
    decreases |s| - from
  {
    if from == |s| || IsLineBreak(s[from]) then from else BreakIndex(s, from + 1)
  }

  /** `s.splitlines()`: `\r\n` is one boundary, and a trailing boundary adds no empty line. */
  function SplitLines(s: string): (lines: seq<string>)
    ensures lines == [] <==> s == ""
    ensures forall i, j :: 0 <= i < |lines| && 0 <= j < |lines[i]| ==> !IsLineBreak(lines[i][j])
    decreases |s|
  {
    if s == "" then []
    else
      var i := BreakIndex(s, 0);
      if i == |s| then [s]
      else
        [s[..i]] + SplitLines(s[NextLine(s, i)..])
  }

  /** `s` with every line-boundary character removed. */
  function RemoveBreaks(s: string): (r: string)
    ensures |r| <= |s|
    ensures forall j :: 0 <= j < |r| ==> !IsLineBreak(r[j])
  {
    if s == "" then ""
    else (if IsLineBreak(s[0]) then "" else [s[0]]) + RemoveBreaks(s[1..])
  }

  /** The number of line boundaries in `s`, a `\r\n` pair counting once. */
  function BreakCount(s: string): nat
  {
    if s == "" then 0
    else if !IsLineBreak(s[0]) then BreakCount(s[1..])
    else if s[0] == '\r' && |s| > 1 && s[1] == '\n' then 1 + BreakCount(s[2..])
    else 1 + BreakCount(s[1..])
  }

  lemma {:induction false} RemoveBreaksAppend(a: string, b: string)
    ensures RemoveBreaks(a + b) == RemoveBreaks(a) + RemoveBreaks(b)
    decreases |a|
  {
    if a == "" {
      assert a + b == b;
    } else {
      assert (a + b)[0] == a[0] && (a + b)[1..] == a[1..] + b;
      RemoveBreaksAppend(a[1..], b);
    }
  }

  lemma {:induction false} NoBreaksKept(s: string)
    requires forall k :: 0 <= k < |s| ==> !IsLineBreak(s[k])
    ensures RemoveBreaks(s) == s
    decreases |s|
  {
    if s != "" {
      NoBreaksKept(s[1..]);
      assert s == [s[0]] + s[1..];
    }
  }

  lemma {:induction false} BreakCountSkip(s: string, i: nat)
    requires i <= |s|
    requires forall k :: 0 <= k < i ==> !IsLineBreak(s[k])
    ensures BreakCount(s) == BreakCount(s[i..])
    decreases i
  {
    if i > 0 {
      assert s[1..][i - 1..] == s[i..];
      BreakCountSkip(s[1..], i - 1);
    }
  }

  /** Where `splitlines` resumes after the boundary at `i`: past `\r\n`, else past one character. */
  function NextLine(s: string, i: nat): (next: nat)
    requires i < |s|
    ensures i < next <= |s|
  {
    if s[i] == '\r' && i + 1 < |s| && s[i + 1] == '\n' then i + 2 else i + 1
  }

  /** One boundary: it is counted once and leaves no characters behind. */
  lemma OneBoundary(s: string, i: nat)
    requires i < |s| && IsLineBreak(s[i])
    ensures RemoveBreaks(s[i..]) == RemoveBreaks(s[NextLine(s, i)..])
    ensures BreakCount(s[i..]) == 1 + BreakCount(s[NextLine(s, i)..])
  {
    var next := NextLine(s, i);
    assert s[i..][1..] == s[i + 1..];
    if next == i + 2 {
      assert s[i..][2..] == s[next..];
      assert s[i + 1..][1..] == s[next..];
    }
  }

  /** `splitlines` keeps every character but the boundaries: the lines, run together,
      are the text without its boundary characters. */
  lemma {:induction false} SplitLinesKeepsText(s: string)
    ensures Join(SplitLines(s), "") == RemoveBreaks(s)
    decreases |s|
  {
    if s != "" {
      var i := BreakIndex(s, 0);
      NoBreaksKept(s[..i]);
      if i == |s| {
        assert s[..i] == s;
      } else {
        var next := NextLine(s, i);
        var rest := s[next..];
        OneBoundary(s, i);
        assert s == s[..i] + s[i..];
        RemoveBreaksAppend(s[..i], s[i..]);
        assert RemoveBreaks(s) == s[..i] + RemoveBreaks(rest);
        SplitLinesKeepsText(rest);
        var tail := SplitLines(rest);
        var lines := [s[..i]] + tail;
        assert SplitLines(s) == lines;
        assert lines[0] == s[..i] && lines[1..] == tail;
        JoinNoSeparator(lines);
      }
    }
  }

  /** How many lines `splitlines` makes: one per boundary, plus one more when the text
      does not end in a boundary. */
  lemma {:induction false} SplitLinesCount(s: string)
    requires s != ""
    ensures |SplitLines(s)| == BreakCount(s) + (if IsLineBreak(s[|s| - 1]) then 0 else 1)
    decreases |s|
  {
    var i := BreakIndex(s, 0);
    BreakCountSkip(s, i);
    if i == |s| {
      assert s[i..] == "";
      assert !IsLineBreak(s[|s| - 1]);
    } else {
      var next := NextLine(s, i);
      var rest := s[next..];
      OneBoundary(s, i);
      assert SplitLines(s) == [s[..i]] + SplitLines(rest);
      if rest == "" {
        assert next == |s|;
        if next == i + 2 {
          assert s[|s| - 1] == '\n';
        } else {
          assert s[|s| - 1] == s[i];
        }
      } else {
        SplitLinesCount(rest);
        assert rest[|rest| - 1] == s[|s| - 1];
      }
    }
  }

  /** `pat` occurs in `s` starting at index `i`. */
  predicate OccursAt(s: string, pat: string, i: int) {
    0 <= i && i + |pat| <= |s| && s[i..i + |pat|] == pat
  }

  /** `s.find(pat, from)`: the leftmost occurrence at or after `from`. */
  function Find(s: string, pat: string, from: nat): (r: Option<nat>)
    ensures r.Some? ==> from <= r.value && OccursAt(s, pat, r.value)
    ensures r.Some? ==> forall k :: from <= k < r.value ==> !OccursAt(s, pat, k)
    ensures r.None? ==> forall k :: from <= k ==> !OccursAt(s, pat, k)
    decreases |s| - from
  {
    if from + |pat| > |s| then None
    else if OccursAt(s, pat, from) then Some(from)
    else Find(s, pat, from + 1)
  }

  /** Python's `a < b` on strings: lexicographic by code point, a proper prefix first. */
  predicate Less(a: string, b: string)
    ensures a < b ==> Less(a, b)
  {
    if a == "" then b != ""
    else b != "" && (a[0] < b[0] || (a[0] == b[0] && Less(a[1..], b[1..])))
  }

  /** `a` and `b` agree before position `i`, where `a` has the smaller code point. */
  predicate SmallerAt(a: string, b: string, i: int) {
    0 <= i < |a| && i < |b| && a[..i] == b[..i] && a[i] < b[i]
  }

  /** Past a common first character, the first difference moves one position. */
  lemma SmallerAtTail(a: string, b: string)
    requires a != "" && b != "" && a[0] == b[0]
    ensures (exists i :: SmallerAt(a, b, i)) <==> exists i :: SmallerAt(a[1..], b[1..], i)
  {
    var a', b' := a[1..], b[1..];
    if i :| SmallerAt(a', b', i) {
      assert a[..i + 1] == [a[0]] + a'[..i] && b[..i + 1] == [b[0]] + b'[..i];
      assert SmallerAt(a, b, i + 1);
    }
    if i :| SmallerAt(a, b, i) {
      assert i != 0;
      assert a'[..i - 1] == a[1..i] && b'[..i - 1] == b[1..i];
      assert SmallerAt(a', b', i - 1);
    }
  }

  /** Python's string order spelled out: `a` sorts first when it is a proper prefix of
      `b`, or at the first position where the two differ `a` has the smaller code point. */
  lemma {:induction false} LessLexicographic(a: string, b: string)
    ensures Less(a, b) <==> a < b || exists i :: SmallerAt(a, b, i)
  {
    if a == "" || b == "" {
    } else if a[0] != b[0] {
      if a[0] < b[0] {
        assert SmallerAt(a, b, 0);
      }
    } else {
      var a', b' := a[1..], b[1..];
      LessLexicographic(a', b');
      SmallerAtTail(a, b);
      assert a == [a[0]] + a' && b == [b[0]] + b';
      assert a < b <==> a' < b' by {
        if a' < b' {
          assert a == b[..|a|];
        }
        if a < b {
          assert a' == b'[..|a'|];
        }
      }
    }
  }

  lemma {:induction false} LessIrreflexive(a: string)
    ensures !Less(a, a)
  {
    if a != "" {
      LessIrreflexive(a[1..]);
    }
  }

  lemma {:induction false} LessTransitive(a: string, b: string, c: string)
    requires Less(a, b) && Less(b, c)
    ensures Less(a, c)
  {
    if a != "" && a[0] == b[0] && b[0] == c[0] {
      LessTransitive(a[1..], b[1..], c[1..]);
    }
  }

  lemma {:induction false} LessTotal(a: string, b: string)
    ensures a == b || Less(a, b) || Less(b, a)
  {
    if a != "" && b != "" && a[0] == b[0] {
      LessTotal(a[1..], b[1..]);
      if a[1..] == b[1..] {
        assert a == [a[0]] + a[1..] && b == [b[0]] + b[1..];
      }
    }
  }

  predicate StrictlySorted(xs: seq<string>) {
    forall i, j :: 0 <= i < j < |xs| ==> Less(xs[i], xs[j])
  }

  ghost predicate IsLeast(m: string, s: set<string>) {
    m in s && forall y :: y in s && y != m ==> Less(m, y)
  }

  lemma {:induction false} LeastExists(s: set<string>)
    requires s != {}
    ensures exists m :: IsLeast(m, s)
    decreases |s|
  {
    var x :| x in s;
    if s - {x} == {} {
      assert s == {x};
      assert IsLeast(x, s);
    } else {
      LeastExists(s - {x});
      var m :| IsLeast(m, s - {x});
      LessTotal(x, m);
      if Less(x, m) {
        forall y | y in s && y != x
          ensures Less(x, y)
        {
          if y != m {
            LessTransitive(x, m, y);
          }
        }
        assert IsLeast(x, s);
      } else {
        assert IsLeast(m, s);
      }
    }
  }

  /** `sorted(s)` for a set of distinct strings: its elements in strictly ascending order. */
  ghost function SortedSeq(s: set<string>): (r: seq<string>)
    ensures StrictlySorted(r)
    ensures forall x :: x in r <==> x in s
    ensures |r| == |s|
    decreases |s|
  {
    if s == {} then []
    else
      LeastExists(s);
      var m :| IsLeast(m, s);
      var rest := SortedSeq(s - {m});
      assert forall j :: 0 <= j < |rest| ==> rest[j] in s - {m};
      [m] + rest
  }
}
