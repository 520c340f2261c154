/**
 * Building the merged document: the text of a block's range on one side
 * (`_extract_range`), the text a merge choice picks (`_merge_choice`), and
 * where that text goes in the merge buffer.
 */
module Merge {
  import opened Lines
  import opened Opcodes

  /** The three merge buttons. */
  datatype Choice = UseLeft | UseRight | UseBoth

  /** What `_extract_range` reads for visual line `line`: nothing for a
      line where a spacer range starts or a line beyond the widget (whose
      index the widget clamps to its end), otherwise the line's text with
      its newline.  A spacer line that follows another one is read like
      any other line. */
  function Piece(w: seq<Line>, line: int): string
  {
    if 1 <= line <= |w| && !StartsSpacerRange(w, line) then w[line - 1].text + "\n" else ""
  }

  /** The pieces of visual lines `start + 1 .. end`, in order. */
  function Pieces(w: seq<Line>, start: nat, end: nat): (r: seq<string>)
    ensures |r| == if end <= start then 0 else end - start
  {
    if end <= start then [] else Pieces(w, start, end - 1) + [Piece(w, end)]
  }

  /** `"".join(pieces)`. */
  function Concat(pieces: seq<string>): string
  {
    if pieces == [] then "" else Concat(pieces[..|pieces| - 1]) + pieces[|pieces| - 1]
  }

  lemma {:induction false} ExtractedStep(w: seq<Line>, start: nat, end: nat)
    requires start < end
    ensures Extracted(w, start, end) == Extracted(w, start, end - 1) + Piece(w, end)
  {
    var p := Pieces(w, start, end);
    assert p[..|p| - 1] == Pieces(w, start, end - 1);
  }

  /** The text `_extract_range` returns for the range `(start, end)`. */
  function Extracted(w: seq<Line>, start: nat, end: nat): string
  {
    Concat(Pieces(w, start, end))
  }

  /** Lines written out one after another, each followed by a newline. */
  function Terminated(ls: seq<Line>): string
  {
    if ls == [] then "" else ls[0].text + "\n" + Terminated(ls[1..])
  }

  lemma {:induction false} TerminatedAppend(a: seq<Line>, b: seq<Line>)
    ensures Terminated(a + b) == Terminated(a) + Terminated(b)
    decreases |a|
  {
    if a == [] {
      assert a + b == b;
    } else {
      assert (a + b)[1..] == a[1..] + b;
      TerminatedAppend(a[1..], b);
    }
  }

  /** Within the widget, the extracted text is the range's lines, each with
      its newline, except the lines where a spacer range starts.  So the
      first line of a run of spacer lines contributes nothing and every
      further one contributes its (empty) text and newline; where no spacer
      line follows another, exactly the non-spacer lines are read. */
  lemma {:induction false} ExtractedIsRealLines(w: seq<Line>, start: nat, end: nat)
    requires start <= end <= |w|
    ensures Extracted(w, start, end) == Terminated(RealLines(RangeStarts(w)[start..end]))
    ensures (forall line :: start < line <= end ==> !(IsSpacerLine(w, line) && IsSpacerLine(w, line - 1))) ==>
      Extracted(w, start, end) == Terminated(RealLines(w[start..end]))
  {
    ExtractedIsRangeStarts(w, start, end);
    if forall line :: start < line <= end ==> !(IsSpacerLine(w, line) && IsSpacerLine(w, line - 1)) {
      RangeStartsOfSingleSpacers(w, start, end);
    }
  }

  lemma {:induction false} ExtractedIsRangeStarts(w: seq<Line>, start: nat, end: nat)
    requires start <= end <= |w|
    ensures Extracted(w, start, end) == Terminated(RealLines(RangeStarts(w)[start..end]))
    decreases end
  {
    if start < end {
      ExtractedIsRangeStarts(w, start, end - 1);
      ExtractedRangeStartsStep(w, start, end);
    } else {
      assert RangeStarts(w)[start..end] == [];
    }
  }

  /** One more line read off the lines as `_is_spacer_line` sees them. */
  lemma ExtractedRangeStartsStep(w: seq<Line>, start: nat, end: nat)
    requires start < end <= |w|
    requires Extracted(w, start, end - 1) == Terminated(RealLines(RangeStarts(w)[start..end - 1]))
    ensures Extracted(w, start, end) == Terminated(RealLines(RangeStarts(w)[start..end]))
  {
    var v := RangeStarts(w);
    var front := RealLines(v[start..end - 1]);
    var last := v[end - 1];
    PieceOfRangeStart(w, end);
    if !last.spacer {
      calc {
        Extracted(w, start, end);
        { ExtractedStep(w, start, end); }
        Extracted(w, start, end - 1) + (last.text + "\n");
        Terminated(front) + (last.text + "\n");
        { TerminatedOne(last); }
        Terminated(front) + Terminated([last]);
        { TerminatedAppend(front, [last]); }
        Terminated(front + [last]);
        { RealLinesSliceStep(v, start, end); }
        Terminated(RealLines(v[start..end]));
      }
    } else {
      calc {
        Extracted(w, start, end);
        { ExtractedStep(w, start, end); }
        Extracted(w, start, end - 1) + "";
        { assert Extracted(w, start, end - 1) + "" == Extracted(w, start, end - 1); }
        Extracted(w, start, end - 1);
        Terminated(front);
        { RealLinesSliceStep(v, start, end); assert front + [] == front; }
        Terminated(RealLines(v[start..end]));
      }
    }
  }

  lemma TerminatedOne(l: Line)
    ensures Terminated([l]) == l.text + "\n"
  {
    assert Terminated([l]) == l.text + "\n" + Terminated([]);
  }

  /** A range without spacer lines reads as its lines, each with its
      newline. */
  lemma ExtractedOfNoSpacers(w: seq<Line>, a: nat, b: nat)
    requires a <= b <= |w| && NoSpacers(w[a..b])
    ensures Extracted(w, a, b) == Terminated(w[a..b])
  {
    calc {
      Extracted(w, a, b);
      { ExtractedIsRangeStarts(w, a, b); }
      Terminated(RealLines(RangeStarts(w)[a..b]));
      { RangeStartsOfNoSpacers(w, a, b); }
      Terminated(RealLines(w[a..b]));
      { RealLinesOfNoSpacers(w[a..b]); }
      Terminated(w[a..b]);
    }
  }

  /** The piece of one line, read off the lines as `_is_spacer_line` sees
      them. */
  lemma PieceOfRangeStart(w: seq<Line>, line: nat)
    requires 1 <= line <= |w|
    ensures RangeStarts(w)[line - 1].spacer ==> Piece(w, line) == ""
    ensures !RangeStarts(w)[line - 1].spacer ==> Piece(w, line) == RangeStarts(w)[line - 1].text + "\n"
  {
  }

  /** Lines beyond the end of the widget add nothing, so a range left over
      from an older comparison reads at most to the widget's end. */
  lemma {:induction false} ExtractedPastEnd(w: seq<Line>, start: nat, end: nat)
    requires |w| <= end
    ensures Extracted(w, start, end) == Extracted(w, start, if start <= |w| then |w| else start)
    decreases end
  {
    if end > |w| && end > start {
      ExtractedPastEnd(w, start, end - 1);
      ExtractedStep(w, start, end);
      assert Extracted(w, start, end) == Extracted(w, start, end - 1) + "";
    } else if end > start {
      assert end == |w|;
    }
  }

  /** Splitting newline-terminated lines at '\n' gives back their texts, and
      one empty line after the last newline. */
  lemma {:induction false} SplitTerminated(ls: seq<Line>)
    requires forall k :: 0 <= k < |ls| ==> '\n' !in ls[k].text
    ensures SplitLines(Terminated(ls)) == Texts(ls) + [""]
  {
    if ls != [] {
      var head, rest := ls[0].text, Terminated(ls[1..]);
      calc {
        SplitLines(Terminated(ls));
        { assert Terminated(ls) == head + ("\n" + rest); }
        SplitLines(head + ("\n" + rest));
        { SplitPrefix(head, "\n" + rest); SplitNewline(rest); }
        [head + ""] + SplitLines(rest);
        { assert head + "" == head; SplitTerminated(ls[1..]); }
        [head] + (Texts(ls[1..]) + [""]);
        { assert Texts(ls) == [head] + Texts(ls[1..]); }
        Texts(ls) + [""];
      }
    }
  }

  lemma SplitNewline(rest: string)
    ensures SplitLines("\n" + rest) == [""] + SplitLines(rest)
  {
    assert ("\n" + rest)[1..] == rest;
  }

  /** `_extract_range`: collects the piece of every visual line of the range
      and joins them. */
  method ExtractRange(w: seq<Line>, range: (nat, nat)) returns (text: string)
    ensures text == Extracted(w, range.0, range.1)
    ensures range.0 <= range.1 <= |w| ==> text == Terminated(RealLines(RangeStarts(w)[range.0..range.1]))
  {
    var (start, end) := range;
    if start == end {
      return "";
    }
    var pieces: seq<string> := [];
    var line := start + 1;
    while line < end + 1
      invariant start + 1 <= line <= if start < end then end + 1 else start + 1
      invariant pieces == Pieces(w, start, line - 1)
    {
      if !StartsSpacerRange(w, line) && 1 <= line <= |w| {
        pieces := pieces + [w[line - 1].text + "\n"];
      } else {
        pieces := pieces + [""];
      }
      line := line + 1;
    }
    assert pieces == Pieces(w, start, end);
    text := Concat(pieces);
    if start <= end <= |w| {
      ExtractedIsRealLines(w, start, end);
    }
  }

  /** The text a merge button picks from the two extracted ranges. */
  function Chosen(choice: Choice, left: string, right: string): string
  {
    match choice
    case UseLeft => left
    case UseRight => right
    case UseBoth => left + right
  }

  /** The lines a merge button picks from the two ranges. */
  function ChosenLines(choice: Choice, left: seq<Line>, right: seq<Line>): seq<Line>
  {
    match choice
    case UseLeft => left
    case UseRight => right
    case UseBoth => left + right
  }

  lemma {:induction false} TerminatedEmpty(ls: seq<Line>)
    ensures Terminated(ls) == "" <==> ls == []
  {
    if ls != [] {
      assert Terminated(ls)[|ls[0].text|] == '\n';
    }
  }

  /** Without spacers, a range inside the widget reads as its lines, each
      ending in a newline. */
  lemma {:induction false} RangeText(w: seq<Line>, range: (nat, nat))
    requires NoSpacers(w) && range.0 <= range.1 <= |w|
    requires forall k :: 0 <= k < |w| ==> '\n' !in w[k].text
    ensures Extracted(w, range.0, range.1) == Terminated(w[range.0..range.1])
    ensures forall k :: 0 <= k < range.1 - range.0 ==> '\n' !in w[range.0..range.1][k].text
  {
    var (a, b) := range;
    var s := w[a..b];
    NoSpacersSlice(w, a, b);
    ExtractedOfNoSpacers(w, a, b);
    forall k | 0 <= k < |s|
      ensures '\n' !in s[k].text
    {
      assert s[k] == w[a + k];
    }
  }

  lemma {:induction false} NoNewlinesAppend(a: seq<Line>, b: seq<Line>)
    requires forall k :: 0 <= k < |a| ==> '\n' !in a[k].text
    requires forall k :: 0 <= k < |b| ==> '\n' !in b[k].text
    ensures forall k :: 0 <= k < |a + b| ==> '\n' !in (a + b)[k].text
  {
    forall k | 0 <= k < |a + b|
      ensures '\n' !in (a + b)[k].text
    {
      if k >= |a| {
        assert (a + b)[k] == b[k - |a|];
      }
    }
  }

  /** Without spacers, a merge button's text is the chosen block lines, each
      ending in a newline: it splits back into exactly those lines, and it is
      empty ("Nothing to merge") exactly when the chosen ranges are empty. */
  lemma {:induction false} ChosenIsBlockLines(choice: Choice, l: seq<Line>, r: seq<Line>, lr: (nat, nat), rr: (nat, nat))
    requires NoSpacers(l) && NoSpacers(r)
    requires lr.0 <= lr.1 <= |l| && rr.0 <= rr.1 <= |r|
    requires forall k :: 0 <= k < |l| ==> '\n' !in l[k].text
    requires forall k :: 0 <= k < |r| ==> '\n' !in r[k].text
    ensures var text := Chosen(choice, Extracted(l, lr.0, lr.1), Extracted(r, rr.0, rr.1));
      var lines := ChosenLines(choice, l[lr.0..lr.1], r[rr.0..rr.1]);
      SplitLines(text) == Texts(lines) + [""] && (text == "" <==> lines == [])
  {
    var a, b := l[lr.0..lr.1], r[rr.0..rr.1];
    RangeText(l, lr);
    RangeText(r, rr);
    var lines := ChosenLines(choice, a, b);
    if choice == UseBoth {
      TerminatedAppend(a, b);
      NoNewlinesAppend(a, b);
    }
    assert Chosen(choice, Extracted(l, lr.0, lr.1), Extracted(r, rr.0, rr.1)) == Terminated(lines);
    SplitTerminated(lines);
    TerminatedEmpty(lines);
  }

  /** Python's `str.isspace` for one character. */
  predicate IsSpace(c: char)
  {
    c == ' ' || ('\t' <= c <= '\r') || ('\U{1C}' <= c <= '\U{1F}') ||
    c == '\U{85}' || c == '\U{A0}' || c == '\U{1680}' ||
    ('\U{2000}' <= c <= '\U{200A}') || c == '\U{2028}' || c == '\U{2029}' ||
    c == '\U{202F}' || c == '\U{205F}' || c == '\U{3000}'
  }

  /** `not s.strip()`: the text is empty or whitespace only. */
  predicate IsBlank(s: string)
  {
    forall i :: 0 <= i < |s| ==> IsSpace(s[i])
  }

  /** Where `_merge_choice` puts a non-empty chosen text: at the start of a
      blank merge buffer, otherwise at its end. */
  function Merged(buffer: string, chosen: string): string
  {
    if IsBlank(buffer) then chosen + buffer else buffer + chosen
  }

  /** A merge never loses text: the result holds the buffer and the chosen
      text, one after the other, and is blank only if both were. */
  lemma {:induction false} MergedKeepsBoth(buffer: string, chosen: string)
    ensures var m := Merged(buffer, chosen);
      |m| == |buffer| + |chosen| &&
      (!IsBlank(buffer) ==> m[..|buffer|] == buffer && m[|buffer|..] == chosen) &&
      (IsBlank(buffer) ==> m[..|chosen|] == chosen && m[|chosen|..] == buffer) &&
      (IsBlank(m) <==> IsBlank(buffer) && IsBlank(chosen))
  {
    var m := Merged(buffer, chosen);
    if IsBlank(buffer) {
      assert forall i :: 0 <= i < |chosen| ==> m[i] == chosen[i];
      assert forall i :: 0 <= i < |buffer| ==> m[|chosen| + i] == buffer[i];
    } else {
      assert forall i :: 0 <= i < |buffer| ==> m[i] == buffer[i];
      assert forall i :: 0 <= i < |chosen| ==> m[|buffer| + i] == chosen[i];
    }
  }

  /** The buffer after merging each of `texts` in turn; an empty text
      changes nothing ("Nothing to merge"). */
  function MergeAll(buffer: string, texts: seq<string>): string
  {
    if texts == [] then buffer
    else
      var before := MergeAll(buffer, texts[..|texts| - 1]);
      var t := texts[|texts| - 1];
      if t == "" then before else Merged(before, t)
  }

  /** Starting from a cleared buffer, merging texts that are not blank
      builds the document in the order the merges were made. */
  lemma {:induction false} MergesInOrder(texts: seq<string>)
    requires forall k :: 0 <= k < |texts| ==> !IsBlank(texts[k])
    ensures MergeAll("", texts) == Concat(texts)
    ensures texts != [] ==> !IsBlank(MergeAll("", texts))
  {
    if texts != [] {
      var front := texts[..|texts| - 1];
      var t := texts[|texts| - 1];
      MergesInOrder(front);
      assert !IsBlank(t);
      MergedKeepsBoth(Concat(front), t);
      if front == [] {
        assert t + "" == t;
      }
    }
  }

  // ---------------------------------------------------------------------
  // Block ranges against a padded widget.

  /** Left "a", "c", "d" against a right side of `n` lines followed by
      "c", "e": the aligner replaces "a" by the `n` lines, keeps "c", and
      replaces "d" by "e".  With `n == 2` the right side is "x", "y", "c",
      "e"; with `n == 3` it is "x", "y", "z", "c", "e".  Either way there
      are two blocks, and the second one is opcode 2. */
  function ExampleOps(n: nat): seq<Opcode>
  {
    [Opcode(Replace, 0, 1, 0, n), Opcode(Equal, 1, 2, n, n + 1), Opcode(Replace, 2, 3, n + 1, n + 2)]
  }

  /** The left side "a", "c", "d", described line by line. */
  predicate IsExampleLeft(w: seq<Line>)
  {
    |w| == 3 && w[0] == Line("a", false) && w[1] == Line("c", false) && w[2] == Line("d", false)
  }

  lemma ExampleCovers(n: nat)
    requires 1 <= n
    ensures Covers(ExampleOps(n), 3, n + 2)
  {
    var ops := ExampleOps(n);
    assert WellFormedAt(ops, 0) && WellFormedAt(ops, 1) && WellFormedAt(ops, 2);
  }

  lemma ExamplePaddedOne(ops: seq<Opcode>, w: seq<Line>, n: nat)
    requires 1 <= n && ops == ExampleOps(n) && IsExampleLeft(w)
    ensures Covers(ops, 3, n + 2)
    ensures Padded(ops, 1, w, Left) == [Line("a", false)] + Spacers(n - 1)
  {
    ExampleCovers(n);
    PaddedLast(ops, 1, w, Left);
    assert SpacerCount(ops[0], Left) == n - 1 by {
      assert Len(ops[0], Left) == 1 && Len(ops[0], Right) == n;
    }
    assert w[0..1] == [Line("a", false)];
  }

  lemma ExamplePaddedTwo(ops: seq<Opcode>, w: seq<Line>, n: nat)
    requires 1 <= n && ops == ExampleOps(n) && IsExampleLeft(w)
    ensures Covers(ops, 3, n + 2)
    ensures Padded(ops, 2, w, Left) == [Line("a", false)] + Spacers(n - 1) + [Line("c", false)]
  {
    ExamplePaddedOne(ops, w, n);
    PaddedLast(ops, 2, w, Left);
    assert w[1..2] == [Line("c", false)];
    assert Spacers(0) == [];
  }

  /** The padded left side: `n - 1` spacers after "a", beside the right
      side's further replacement lines, and nothing else. */
  lemma ExamplePadded(ops: seq<Opcode>, w: seq<Line>, n: nat)
    requires 1 <= n && ops == ExampleOps(n) && IsExampleLeft(w)
    ensures Covers(ops, 3, n + 2)
    ensures Padded(ops, 3, w, Left) == [Line("a", false)] + Spacers(n - 1) + [Line("c", false), Line("d", false)]
  {
    ExampleCovers(n);
    calc {
      Padded(ops, 3, w, Left);
      { PaddedLast(ops, 3, w, Left); }
      Padded(ops, 2, w, Left) + w[2..3] + Spacers(SpacerCount(ops[2], Left));
      { ExamplePaddedTwo(ops, w, n); assert w[2..3] == [Line("d", false)] && SpacerCount(ops[2], Left) == 0; }
      [Line("a", false)] + Spacers(n - 1) + [Line("c", false)] + [Line("d", false)] + Spacers(0);
      { assert Spacers(0) == []; }
      [Line("a", false)] + Spacers(n - 1) + [Line("c", false), Line("d", false)];
    }
  }

  /** With sync view on, `_merge_choice` reads a block's range, which counts
      logical lines, from the padded widget, which counts visual lines.  In
      the example with right side "x", "y", "c", "e", the second block's
      left range `(2, 3)` holds the line "d", but read from the padded left
      side it gives the line "c". */
  lemma UnshiftedRangeReadsWrongLine(w: seq<Line>)
    requires IsExampleLeft(w)
    ensures Covers(ExampleOps(2), 3, 4)
    ensures Extracted(Padded(ExampleOps(2), 3, w, Left), ExampleOps(2)[2].i1, ExampleOps(2)[2].i2) == "c\n"
    ensures Extracted(w, ExampleOps(2)[2].i1, ExampleOps(2)[2].i2) == "d\n"
  {
    ExamplePadded(ExampleOps(2), w, 2);
    var p := Padded(ExampleOps(2), 3, w, Left);
    assert p[2] == Line("c", false);
    ExtractedStep(p, 2, 3);
    ExtractedStep(w, 2, 3);
    assert Piece(p, 3) == "c" + "\n" == "c\n";
    assert Piece(w, 3) == "d" + "\n" == "d\n";
  }

  /** Only the first line of a run of spacer lines is skipped: in the
      example with right side "x", "y", "z", "c", "e", the padded left side
      is "a", two spacer lines, "c", "d", and the second block's unshifted
      left range `(2, 3)` lands on the second spacer line, which is read as
      an empty line. */
  lemma SpacerRunReadsBlankLine(w: seq<Line>)
    requires IsExampleLeft(w)
    ensures Covers(ExampleOps(3), 3, 5)
    ensures IsSpacerLine(Padded(ExampleOps(3), 3, w, Left), ExampleOps(3)[2].i2)
    ensures Extracted(Padded(ExampleOps(3), 3, w, Left), ExampleOps(3)[2].i1, ExampleOps(3)[2].i2) == "\n"
  {
    ExamplePadded(ExampleOps(3), w, 3);
    var p := Padded(ExampleOps(3), 3, w, Left);
    assert p[1] == Line("", true) && p[2] == Line("", true);
    ExtractedStep(p, 2, 3);
    assert Piece(p, 3) == "" + "\n" == "\n";
  }

  /** The range opcode `k` occupies in the padded widget: shifted by the
      spacers the opcodes before it added, the offset the padder keeps. */
  function AlignedRange(ops: seq<Opcode>, k: nat, side: Side): (nat, nat)
    requires k < |ops|
  {
    (Lo(ops[k], side) + TotalSpacers(ops, k, side), Hi(ops[k], side) + TotalSpacers(ops, k, side))
  }

  /** Reading the shifted range from the padded widget gives exactly the
      block's own lines, the text the unpadded widget gives for the
      unshifted range. */
  lemma {:induction false} AlignedRangeReadsBlock(ops: seq<Opcode>, k: nat, w: seq<Line>, side: Side)
    requires WellFormed(ops) && k < |ops| && NoSpacers(w) && End(ops, side) <= |w|
    ensures Lo(ops[k], side) <= Hi(ops[k], side) <= |w|
    ensures Extracted(Padded(ops, |ops|, w, side), AlignedRange(ops, k, side).0, AlignedRange(ops, k, side).1) ==
      Terminated(w[Lo(ops[k], side)..Hi(ops[k], side)])
    ensures Extracted(w, Lo(ops[k], side), Hi(ops[k], side)) == Terminated(w[Lo(ops[k], side)..Hi(ops[k], side)])
  {
    PaddedBlockAt(ops, k, |ops|, w, side);
    assert WellFormedAt(ops, k);
    PaddedLength(ops, k, w, side);
    var lo, hi := Lo(ops[k], side), Hi(ops[k], side);
    var p := Padded(ops, |ops|, w, side);
    var a := |Padded(ops, k, w, side)|;
    var r := AlignedRange(ops, k, side);
    assert r.0 == a && r.1 == a + (hi - lo);
    assert p[r.0..r.1] == w[lo..hi];
    NoSpacersSlice(w, lo, hi);
    ExtractedOfNoSpacers(p, r.0, r.1);
    ExtractedOfNoSpacers(w, lo, hi);
  }
}
