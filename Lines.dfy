/** Small wrappers shared by the other modules. */
module Wrappers {
  datatype Option<+T> = None | Some(value: T)

  function Max(a: int, b: int): int
  {
    if a >= b then a else b
  }
}

/**
 * The line model of a text widget.  A widget holds an ordered sequence of
 * lines; visual line `L` (1-based, as the widget numbers them) is element
 * `L - 1`.  A line is either real content or a blank "spacer" line that the
 * alignment padder inserted and tagged.
 */
module Lines {
  import opened Wrappers

  /** One widget line: its text without the terminating newline, and whether
      the "spacer" tag covers it. */
  datatype Line = Line(text: string, spacer: bool)

  /** `count` blank lines carrying the spacer tag. */
  function Spacers(count: nat): seq<Line>
  {
    seq(count, _ => Line("", true))
  }

  /** `count` blank lines as `"\n" * count` inserts them, before tagging. */
  function BlankLines(count: nat): seq<Line>
  {
    seq(count, _ => Line("", false))
  }

  predicate NoSpacers(w: seq<Line>)
  {
    forall i :: 0 <= i < |w| ==> !w[i].spacer
  }

  /** The lines of `w` that are not spacers, in order. */
  function RealLines(w: seq<Line>): (r: seq<Line>)
    ensures |r| <= |w|
    ensures NoSpacers(r)
  {
    if w == [] then []
    else RealLines(w[..|w| - 1]) + (if w[|w| - 1].spacer then [] else [w[|w| - 1]])
  }

  lemma {:induction false} RealLinesAppend(a: seq<Line>, b: seq<Line>)
    ensures RealLines(a + b) == RealLines(a) + RealLines(b)
    decreases |b|
  {
    if b == [] {
      assert a + b == a;
    } else {
      var b' := b[..|b| - 1];
      assert (a + b)[..|a + b| - 1] == a + b';
      RealLinesAppend(a, b');
    }
  }

  /** One unfolding of `RealLines` on a slice: its last line is kept
      unless it is a spacer. */
  lemma RealLinesSliceStep(w: seq<Line>, a: nat, b: nat)
    requires a < b <= |w|
    ensures RealLines(w[a..b]) == RealLines(w[a..b - 1]) + (if w[b - 1].spacer then [] else [w[b - 1]])
  {
    var s := w[a..b];
    assert s[..|s| - 1] == w[a..b - 1] && s[|s| - 1] == w[b - 1];
  }

  lemma {:induction false} RealLinesOfNoSpacers(w: seq<Line>)
    requires NoSpacers(w)
    ensures RealLines(w) == w
  {
    if w != [] {
      RealLinesOfNoSpacers(w[..|w| - 1]);
      assert w[..|w| - 1] + [w[|w| - 1]] == w;
    }
  }

  lemma NoSpacersSlice(w: seq<Line>, a: nat, b: nat)
    requires NoSpacers(w) && a <= b <= |w|
    ensures NoSpacers(w[a..b])
  {
    forall i | 0 <= i < b - a
      ensures !w[a..b][i].spacer
    {
      assert w[a..b][i] == w[a + i];
    }
  }

  lemma {:induction false} SpacersAreNotReal(n: nat)
    ensures RealLines(Spacers(n)) == []
  {
    if n > 0 {
      assert Spacers(n)[..n - 1] == Spacers(n - 1);
      SpacersAreNotReal(n - 1);
    }
  }

  /** Real lines followed by spacers contribute exactly the real lines. */
  lemma RealLinesThenSpacers(p: seq<Line>, chunk: seq<Line>, n: nat)
    requires NoSpacers(chunk)
    ensures RealLines(p + chunk + Spacers(n)) == RealLines(p) + chunk
  {
    RealLinesOfNoSpacers(chunk);
    SpacersAreNotReal(n);
    RealLinesAppend(p, chunk);
    RealLinesAppend(p + chunk, Spacers(n));
  }

  /** The spacer tag covers visual line `line`; a line outside the widget
      carries no tag. */
  predicate IsSpacerLine(w: seq<Line>, line: int)
  {
    1 <= line <= |w| && w[line - 1].spacer
  }

  /** `_is_spacer_line`: a range of the spacer tag starts on visual line
      `line`.  The widget merges the tags of neighbouring lines into one
      range, and the range search only reports a range that starts inside
      the line, so of a run of spacer lines only the first one answers. */
  predicate StartsSpacerRange(w: seq<Line>, line: int)
  {
    IsSpacerLine(w, line) && !IsSpacerLine(w, line - 1)
  }

  /** The lines as `_is_spacer_line` sees them: a line counts as a spacer
      only where a spacer range starts. */
  function RangeStarts(w: seq<Line>): (r: seq<Line>)
    ensures |r| == |w|
    ensures forall i :: 0 <= i < |w| ==> r[i].text == w[i].text
  {
    seq(|w|, i requires 0 <= i < |w| => Line(w[i].text, StartsSpacerRange(w, i + 1)))
  }

  /** Where no spacer line follows another, `_is_spacer_line` answers for
      every spacer line. */
  lemma RangeStartsOfSingleSpacers(w: seq<Line>, a: nat, b: nat)
    requires a <= b <= |w|
    requires forall line :: a < line <= b ==> !(IsSpacerLine(w, line) && IsSpacerLine(w, line - 1))
    ensures RangeStarts(w)[a..b] == w[a..b]
  {
    var r := RangeStarts(w);
    forall i | a <= i < b
      ensures r[i] == w[i]
    {
      assert !(IsSpacerLine(w, i + 1) && IsSpacerLine(w, i));
    }
  }

  /** A run of lines without spacers reads the same either way. */
  lemma RangeStartsOfNoSpacers(w: seq<Line>, a: nat, b: nat)
    requires a <= b <= |w| && NoSpacers(w[a..b])
    ensures RangeStarts(w)[a..b] == w[a..b]
  {
    forall line | a < line <= b
      ensures !IsSpacerLine(w, line)
    {
      assert w[a..b][line - 1 - a] == w[line - 1];
    }
    RangeStartsOfSingleSpacers(w, a, b);
  }

  /** `_spacer_line_numbers`: the 1-based numbers of the spacer lines, in
      ascending order. */
  function SpacerLineNumbers(w: seq<Line>): (r: seq<int>)
    ensures forall i, j :: 0 <= i < j < |r| ==> r[i] < r[j]
    ensures forall x :: x in r <==> IsSpacerLine(w, x)
    ensures |r| + |RealLines(w)| == |w|
  {
    if w == [] then []
    else
      var front := w[..|w| - 1];
      var prefix := SpacerLineNumbers(front);
      var tail := if w[|w| - 1].spacer then [|w|] else [];
      assert forall x :: IsSpacerLine(w, x) <==> IsSpacerLine(front, x) || x in tail;
      assert forall i :: 0 <= i < |prefix| ==> prefix[i] in prefix && prefix[i] <= |w| - 1;
      prefix + tail
  }

  /** The spacer numbers of a prefix are a prefix of the spacer numbers,
      and everything after them lies beyond the prefix. */
  lemma {:induction false} SpacerLineNumbersSplit(w: seq<Line>, k: nat)
    requires k <= |w|
    ensures var whole := SpacerLineNumbers(w); var front := SpacerLineNumbers(w[..k]);
      |front| <= |whole| && whole[..|front|] == front &&
      forall i :: |front| <= i < |whole| ==> whole[i] > k
    decreases |w| - k
  {
    if k < |w| {
      var w' := w[..|w| - 1];
      assert w'[..k] == w[..k];
      SpacerLineNumbersSplit(w', k);
    } else {
      assert w[..k] == w;
    }
  }

  /** The lines with `n` lines from index `from` on marked as spacers, as
      tagging them "spacer" does; texts are not touched. */
  function Tagged(w: seq<Line>, from: nat, n: nat): (r: seq<Line>)
    ensures |r| == |w|
  {
    seq(|w|, i requires 0 <= i < |w| => if from <= i < from + n then Line(w[i].text, true) else w[i])
  }

  /** Tagging keeps every text and marks as spacers exactly the tagged lines
      and those that were spacers already. */
  lemma TaggedMarksRange(w: seq<Line>, from: nat, n: nat)
    ensures Texts(Tagged(w, from, n)) == Texts(w)
    ensures forall x :: IsSpacerLine(Tagged(w, from, n), x) <==> IsSpacerLine(w, x) || (from < x <= from + n && x <= |w|)
  {
    var r := Tagged(w, from, n);
    assert forall i :: 0 <= i < |w| ==> r[i].text == w[i].text;
  }

  /** Freshly inserted blank lines, once tagged, are spacer lines. */
  lemma TaggedBlankLines(p: seq<Line>, count: nat, s: seq<Line>)
    ensures Tagged(p + BlankLines(count) + s, |p|, count) == p + Spacers(count) + s
  {
    var w := p + BlankLines(count) + s;
    var r := Tagged(w, |p|, count);
    var e := p + Spacers(count) + s;
    assert |r| == |e|;
    forall i | 0 <= i < |r|
      ensures r[i] == e[i]
    {
      if i < |p| {
        assert w[i] == p[i] && e[i] == p[i];
      } else if i < |p| + count {
        assert w[i] == Line("", false) && e[i] == Line("", true);
      } else {
        assert w[i] == s[i - |p| - count] && e[i] == s[i - |p| - count];
      }
    }
  }

  /** `RealLines` unfolded from the front. */
  lemma RealLinesCons(x: Line, s: seq<Line>)
    ensures RealLines([x] + s) == (if x.spacer then [] else [x]) + RealLines(s)
  {
    RealLinesAppend([x], s);
    assert [x][..0] == [];
  }

  /** The texts of the widget's lines. */
  function Texts(w: seq<Line>): (r: seq<string>)
    ensures |r| == |w|
  {
    seq(|w|, i requires 0 <= i < |w| => w[i].text)
  }

  /** The widget lines holding the given texts, none of them a spacer. */
  function ToLines(ts: seq<string>): (r: seq<Line>)
    ensures NoSpacers(r) && Texts(r) == ts
  {
    seq(|ts|, i requires 0 <= i < |ts| => Line(ts[i], false))
  }

  /** How a widget breaks inserted contents into lines: at every '\n'. An
      empty text is one empty line, and a text ending in '\n' ends in an
      empty line. */
  function SplitLines(s: string): (r: seq<string>)
    ensures |r| >= 1
    ensures forall k :: 0 <= k < |r| ==> '\n' !in r[k]
  {
    if s == [] then [""]
    else
      var rest := SplitLines(s[1..]);
      if s[0] == '\n' then [""] + rest
      else [[s[0]] + rest[0]] + rest[1..]
  }

  /** The inverse of SplitLines: lines separated by '\n'. */
  function JoinLines(ls: seq<string>): string
    requires |ls| >= 1
  {
    if |ls| == 1 then ls[0] else ls[0] + "\n" + JoinLines(ls[1..])
  }

  lemma {:induction false} JoinSplit(s: string)
    ensures JoinLines(SplitLines(s)) == s
  {
    if s != [] {
      var rest := SplitLines(s[1..]);
      JoinSplit(s[1..]);
      if s[0] == '\n' {
        assert ([""] + rest)[1..] == rest;
      } else {
        var r := [[s[0]] + rest[0]] + rest[1..];
        if |rest| == 1 {
          assert s == [s[0]] + s[1..];
        } else {
          assert r[1..] == rest[1..];
          assert JoinLines(rest) == rest[0] + "\n" + JoinLines(rest[1..]);
          assert s == [s[0]] + s[1..];
        }
      }
    }
  }

  lemma {:induction false} SplitPrefix(a: string, t: string)
    requires '\n' !in a
    ensures SplitLines(a + t) == [a + SplitLines(t)[0]] + SplitLines(t)[1..]
  {
    if a != [] {
      SplitPrefix(a[1..], t);
      assert (a + t)[1..] == a[1..] + t;
      assert (a + t)[0] == a[0];
      assert [a[0]] + (a[1..] + SplitLines(t)[0]) == a + SplitLines(t)[0];
    } else {
      var r := SplitLines(t);
      assert a + t == t && a + r[0] == r[0];
      assert r == [r[0]] + r[1..];
    }
  }

  lemma {:induction false} SplitJoin(ls: seq<string>)
    requires |ls| >= 1
    requires forall k :: 0 <= k < |ls| ==> '\n' !in ls[k]
    ensures SplitLines(JoinLines(ls)) == ls
  {
    if |ls| == 1 {
      SplitPrefix(ls[0], "");
      assert ls[0] + "" == ls[0];
    } else {
      var j := JoinLines(ls[1..]);
      SplitJoin(ls[1..]);
      assert ls[0] + "\n" + j == ls[0] + ("\n" + j);
      SplitPrefix(ls[0], "\n" + j);
      assert ("\n" + j)[1..] == j;
      assert SplitLines("\n" + j) == [""] + SplitLines(j);
      assert ls[0] + "" == ls[0];
      assert ([""] + SplitLines(j))[1..] == SplitLines(j);
      assert ls == [ls[0]] + ls[1..];
    }
  }
}
