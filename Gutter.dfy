/**
 * The line-number gutter (`_update_line_numbers`): which number each visual
 * line shows once spacer lines are present, and how many digits the gutter
 * is sized for.  Canvas drawing, pixel widths and the restriction to the
 * visible lines are left out.
 */
module Gutter {
  import opened Wrappers
  import opened Lines

  predicate Sorted(a: seq<int>)
  {
    forall i, j :: 0 <= i < j < |a| ==> a[i] <= a[j]
  }

  /** `bisect_left`: the leftmost position at which `x` can be inserted into
      the sorted `a`, i.e. every element before it is below `x` and none
      after it is. */
  function BisectLeft(a: seq<int>, x: int): (r: nat)
    requires Sorted(a)
    ensures r <= |a|
    ensures forall i :: 0 <= i < r ==> a[i] < x
    ensures forall i :: r <= i < |a| ==> a[i] >= x
  {
    if a == [] || a[0] >= x then 0
    else
      assert Sorted(a[1..]);
      1 + BisectLeft(a[1..], x)
  }

  /** `_line_count`: the widget's number of lines, at least 1. */
  function LineCount(w: seq<Line>): nat
  {
    if |w| >= 1 then |w| else 1
  }

  /** `_spacer_line_numbers`: walks the widget's lines from the first to
      the last and collects the number of every line the spacer tag
      covers, so the list comes out ascending. */
  method CollectSpacerLines(w: seq<Line>) returns (lines: seq<int>)
    ensures lines == SpacerLineNumbers(w)
  {
    lines := [];
    var line := 1;
    while line <= |w|
      invariant 1 <= line <= |w| + 1
      invariant lines == SpacerLineNumbers(w[..line - 1])
    {
      assert w[..line][..line - 1] == w[..line - 1];
      if IsSpacerLine(w, line) {
        lines := lines + [line];
      }
      line := line + 1;
    }
    assert w[..|w|] == w;
  }

  /** The number shown beside visual line `line`, given the sorted spacer
      line numbers: none for a spacer line, otherwise the line number less
      the spacers above it, and never below 1. */
  function Label(spacers: seq<int>, line: int): Option<int>
    requires Sorted(spacers)
  {
    if line in spacers then None else Some(Max(line - BisectLeft(spacers, line), 1))
  }

  function Pow10(d: nat): nat
  {
    if d == 0 then 1 else 10 * Pow10(d - 1)
  }

  lemma {:induction false} Pow10Monotone(a: nat, b: nat)
    requires a <= b
    ensures 1 <= Pow10(a) <= Pow10(b)
    decreases b
  {
    if a < b {
      Pow10Monotone(a, b - 1);
    } else if a > 0 {
      Pow10Monotone(a - 1, b - 1);
    }
  }

  /** `len(str(n))` for a positive `n`: the `d` with `10^(d-1) <= n < 10^d`. */
  function DecimalLength(n: nat): (d: nat)
    requires n >= 1
    ensures d >= 1 && Pow10(d - 1) <= n < Pow10(d)
  {
    if n < 10 then 1 else 1 + DecimalLength(n / 10)
  }

  /** The gutter's digit count: at least 2, and enough for the number of
      non-spacer lines (at least 1). */
  function Digits(w: seq<Line>): nat
  {
    Max(2, DecimalLength(Max(LineCount(w) - |SpacerLineNumbers(w)|, 1)))
  }

  lemma SortedSpacerLines(w: seq<Line>)
    ensures Sorted(SpacerLineNumbers(w))
  {
  }

  lemma {:induction false} BisectUnique(a: seq<int>, x: int, p: nat)
    requires Sorted(a) && p <= |a|
    requires forall i :: 0 <= i < p ==> a[i] < x
    requires forall i :: p <= i < |a| ==> a[i] >= x
    ensures BisectLeft(a, x) == p
  {
    if p > 0 {
      assert a[0] < x;
      assert Sorted(a[1..]);
      BisectUnique(a[1..], x, p - 1);
    } else if a != [] {
      assert a[0] >= x;
    }
  }

  /** The spacers strictly above visual line `line` are the spacers of the
      lines before it. */
  lemma {:induction false} BisectCountsSpacersAbove(w: seq<Line>, line: int)
    requires 1 <= line <= |w|
    ensures Sorted(SpacerLineNumbers(w))
    ensures BisectLeft(SpacerLineNumbers(w), line) == |SpacerLineNumbers(w[..line - 1])|
  {
    var spacers := SpacerLineNumbers(w);
    var above := SpacerLineNumbers(w[..line - 1]);
    SpacerLineNumbersSplit(w, line - 1);
    forall i | 0 <= i < |above|
      ensures spacers[i] < line
    {
      assert spacers[i] == above[i] && above[i] in above;
    }
    BisectUnique(spacers, line, |above|);
  }

  lemma RealLinesStep(w: seq<Line>, line: int)
    requires 1 <= line <= |w| && !w[line - 1].spacer
    ensures RealLines(w[..line]) == RealLines(w[..line - 1]) + [w[line - 1]]
  {
    assert w[..line][..line - 1] == w[..line - 1];
  }

  lemma RealLineAt(w: seq<Line>, line: int)
    requires 1 <= line <= |w| && !w[line - 1].spacer
    ensures var n := |RealLines(w[..line])|;
      1 <= n <= |RealLines(w)| && RealLines(w)[n - 1] == w[line - 1]
  {
    RealLinesStep(w, line);
    RealLinesAppend(w[..line], w[line..]);
    assert w[..line] + w[line..] == w;
  }

  /** A non-spacer visual line shows its logical number: its position among
      the non-spacer lines, so the spacers never shift the numbering and the
      floor of 1 never applies. */
  lemma LabelIsLogicalNumber(w: seq<Line>, line: int)
    requires 1 <= line <= |w| && !w[line - 1].spacer
    ensures Sorted(SpacerLineNumbers(w))
    ensures var n := |RealLines(w[..line])|;
      Label(SpacerLineNumbers(w), line) == Some(n) &&
      1 <= n <= |RealLines(w)| && RealLines(w)[n - 1] == w[line - 1]
  {
    BisectCountsSpacersAbove(w, line);
    RealLinesStep(w, line);
    RealLineAt(w, line);
    assert line !in SpacerLineNumbers(w) by {
      assert !IsSpacerLine(w, line);
    }
  }

  /** The gutter is wide enough for every number it shows. */
  lemma LabelsFitDigits(w: seq<Line>, line: int)
    requires 1 <= line <= |w| && !w[line - 1].spacer
    ensures |RealLines(w[..line])| < Pow10(Digits(w))
  {
    LabelIsLogicalNumber(w, line);
    var visible := Max(LineCount(w) - |SpacerLineNumbers(w)|, 1);
    assert |RealLines(w)| <= visible;
    Pow10Monotone(DecimalLength(visible), Digits(w));
  }

  /** What the label of each visual line means: none exactly on spacer
      lines, otherwise the line's logical number, which fits the gutter. */
  lemma LabelsMeaning(w: seq<Line>)
    ensures Sorted(SpacerLineNumbers(w))
    ensures forall i :: 0 <= i < |w| ==> (Label(SpacerLineNumbers(w), i + 1).None? <==> w[i].spacer)
    ensures forall i :: 0 <= i < |w| && !w[i].spacer ==>
      Label(SpacerLineNumbers(w), i + 1) == Some(|RealLines(w[..i + 1])|) &&
      1 <= |RealLines(w[..i + 1])| < Pow10(Digits(w))
  {
    forall i | 0 <= i < |w|
      ensures Label(SpacerLineNumbers(w), i + 1).None? <==> w[i].spacer
    {
      assert (i + 1 in SpacerLineNumbers(w)) <==> IsSpacerLine(w, i + 1);
    }
    forall i | 0 <= i < |w| && !w[i].spacer
      ensures Label(SpacerLineNumbers(w), i + 1) == Some(|RealLines(w[..i + 1])|)
      ensures 1 <= |RealLines(w[..i + 1])| < Pow10(Digits(w))
    {
      LabelIsLogicalNumber(w, i + 1);
      LabelsFitDigits(w, i + 1);
    }
  }

  /** Labels drawn one per visual line, as `Label` gives them, mean what
      `LabelsMeaning` says. */
  lemma DrawnLabels(w: seq<Line>, labels: seq<Option<int>>)
    requires Sorted(SpacerLineNumbers(w)) && |labels| == |w|
    requires forall i :: 0 <= i < |w| ==> labels[i] == Label(SpacerLineNumbers(w), i + 1)
    ensures forall i :: 0 <= i < |w| ==> (labels[i].None? <==> w[i].spacer)
    ensures forall i :: 0 <= i < |w| && !w[i].spacer ==> labels[i] == Some(|RealLines(w[..i + 1])|)
    ensures forall i :: 0 <= i < |w| && labels[i].Some? ==> 1 <= labels[i].value < Pow10(Digits(w))
  {
    LabelsMeaning(w);
  }

  /** `_update_line_numbers`: the digit count, and the label drawn beside
      each visual line of `w` in turn (none for spacer lines). */
  method LineNumbers(w: seq<Line>) returns (digits: nat, labels: seq<Option<int>>)
    ensures digits >= 2 && digits == Digits(w)
    ensures |labels| == |w|
    ensures forall i :: 0 <= i < |w| ==> (labels[i].None? <==> w[i].spacer)
    ensures forall i :: 0 <= i < |w| && !w[i].spacer ==> labels[i] == Some(|RealLines(w[..i + 1])|)
    ensures forall i :: 0 <= i < |w| && labels[i].Some? ==> 1 <= labels[i].value < Pow10(digits)
  {
    var totalLines := LineCount(w);
    var spacerLines := CollectSpacerLines(w);
    SortedSpacerLines(w);
    var visibleLines := Max(totalLines - |spacerLines|, 1);
    digits := Max(2, DecimalLength(visibleLines));
    labels := [];
    var line := 1;
    while line <= |w|
      invariant 1 <= line <= |w| + 1
      invariant |labels| == line - 1
      invariant forall i :: 0 <= i < line - 1 ==> labels[i] == Label(spacerLines, i + 1)
    {
      var shown := None;
      if line !in spacerLines {
        var adjusted := line - BisectLeft(spacerLines, line);
        shown := Some(Max(adjusted, 1));
      }
      assert shown == Label(spacerLines, line);
      labels := labels + [shown];
      line := line + 1;
    }
    DrawnLabels(w, labels);
  }
}
