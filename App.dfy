/**
 * The application object (`DiffMergeApp`): two text widgets side by side,
 * the merge buffer, the difference blocks with their cursor, the opcodes of
 * the last comparison, and whether the alignment spacers are in place.
 * Tk rendering, scrolling, dialogs and message boxes are not modelled; the
 * aligner's opcodes and a file's contents are passed in.
 */
module App {
  import opened Wrappers
  import opened Lines
  import opened Opcodes
  import opened Blocks
  import opened Navigation
  import opened Merge

  /** A Tk text widget, as the ordered lines it holds. */
  class TextWidget {
    var lines: seq<Line>

    /** A new, empty widget holds one empty line. */
    constructor ()
      ensures lines == [Line("", false)]
    {
      lines := [Line("", false)];
    }
  }

  /** The message in the status bar. */
  datatype Status =
    | Ready               // "Load two files or paste text, then click Compare."
    | Loaded(side: Side)  // "Loaded <side> file: <path>"
    | Identical           // "The documents are identical."
    | Viewing(position: nat, total: nat)  // "Viewing difference <position> of <total>"
    | SyncDisabled        // "Sync view disabled."
    | SyncEnabled         // "Sync view enabled. Scrolls are now linked."
    | Appended            // "Appended selection to the merged document."
    | Cleared             // "Cleared merged document."

  /** What a merge button did: the two information boxes, or an append. */
  datatype MergeOutcome = NoSelection | NothingToMerge | Inserted

  /** One step of the backward removal loop: with the lines after `i`
      already reduced to their real lines, deleting line `i` when it is a
      spacer (and keeping it otherwise) reduces the lines from `i` on. */
  lemma RemoveSpacersStep(w0: seq<Line>, i: nat, cur: seq<Line>)
    requires i < |w0| && cur == w0[..i + 1] + RealLines(w0[i + 1..])
    ensures i < |cur| && cur[i] == w0[i]
    ensures cur[i].spacer ==> cur[..i] + cur[i + 1..] == w0[..i] + RealLines(w0[i..])
    ensures !cur[i].spacer ==> cur == w0[..i] + RealLines(w0[i..])
  {
    var rest := RealLines(w0[i + 1..]);
    assert w0[..i + 1] == w0[..i] + [w0[i]];
    assert w0[i..] == [w0[i]] + w0[i + 1..];
    RealLinesCons(w0[i], w0[i + 1..]);
    assert cur == w0[..i] + ([w0[i]] + rest);
    if w0[i].spacer {
      assert cur[..i] == w0[..i] && cur[i + 1..] == rest;
    }
  }

  /** `_remove_spacer_lines` for one widget: deletes every spacer line,
      working from the last line back to the first. */
  method RemoveSpacers(t: TextWidget)
    modifies t
    ensures t.lines == RealLines(old(t.lines))
  {
    ghost var w0 := t.lines;
    var i := |t.lines|;
    assert w0[i..] == [];
    while i > 0
      invariant 0 <= i <= |w0|
      invariant t.lines == w0[..i] + RealLines(w0[i..])
      decreases i
    {
      i := i - 1;
      RemoveSpacersStep(w0, i, t.lines);
      if t.lines[i].spacer {
        t.lines := t.lines[..i] + t.lines[i + 1..];
      }
    }
    assert w0[0..] == w0;
  }

  /** `_tag_spacer_lines`: tags `count` lines from visual line `start` on
      as spacers, one line at a time. */
  method TagSpacerLines(t: TextWidget, start: nat, count: nat)
    requires 1 <= start && start - 1 + count <= |t.lines|
    modifies t
    ensures t.lines == Tagged(old(t.lines), start - 1, count)
  {
    ghost var w0 := t.lines;
    var offset := 0;
    while offset < count
      invariant 0 <= offset <= count
      invariant t.lines == Tagged(w0, start - 1, offset)
    {
      var lineNumber := start + offset;
      t.lines := t.lines[lineNumber - 1 := Line(t.lines[lineNumber - 1].text, true)];
      offset := offset + 1;
    }
  }

  /** `_insert_spacer_lines`: nothing for a non-positive count, otherwise
      `count` blank lines inserted before visual line `line`, then tagged. */
  method InsertSpacerLines(t: TextWidget, line: nat, count: int)
    requires 1 <= line <= |t.lines| + 1
    modifies t
    ensures count <= 0 ==> t.lines == old(t.lines)
    ensures count > 0 ==> t.lines == old(t.lines)[..line - 1] + Spacers(count) + old(t.lines)[line - 1..]
  {
    if count <= 0 {
      return;
    }
    ghost var w0 := t.lines;
    t.lines := t.lines[..line - 1] + BlankLines(count) + t.lines[line - 1..];
    TagSpacerLines(t, line, count);
    TaggedBlankLines(w0[..line - 1], count, w0[line - 1..]);
  }

  /** One insertion of the padding loop: `count` spacer lines into the
      widget of `side` right after opcode `k`'s range, shifted by the
      spacers already inserted there; the widget is then padded up to one
      more opcode. */
  method InsertOpcodeSpacers(t: TextWidget, ops: seq<Opcode>, k: nat, ghost w: seq<Line>, side: Side, line: int, count: int)
    requires WellFormed(ops) && k < |ops| && End(ops, side) <= |w|
    requires PaddedUpTo(t.lines, ops, k, w, side)
    requires count == SpacerCount(ops[k], side) && count > 0
    requires line == Hi(ops[k], side) + TotalSpacers(ops, k, side) + 1
    modifies t
    ensures PaddedUpTo(t.lines, ops, k + 1, w, side)
  {
    PadStepWithSpacers(t.lines, ops, k, w, side);
    InsertSpacerLines(t, line, count);
  }

  /** One pass of the padding loop of `_apply_alignment_spacers`: for a
      non-`equal` opcode whose ranges differ in length, inserts the
      difference as spacer lines right after the shorter side's range and
      advances that side's running offset. */
  method PadOpcode(left: TextWidget, right: TextWidget, ops: seq<Opcode>, k: nat, ghost l0: seq<Line>, ghost r0: seq<Line>,
                   leftOffset: nat, rightOffset: nat)
      returns (leftOffset': nat, rightOffset': nat)
    requires left != right
    requires Covers(ops, |l0|, |r0|) && k < |ops|
    requires PaddedUpTo(left.lines, ops, k, l0, Left) && PaddedUpTo(right.lines, ops, k, r0, Right)
    requires leftOffset == TotalSpacers(ops, k, Left) && rightOffset == TotalSpacers(ops, k, Right)
    modifies left, right
    ensures PaddedUpTo(left.lines, ops, k + 1, l0, Left) && PaddedUpTo(right.lines, ops, k + 1, r0, Right)
    ensures leftOffset' == TotalSpacers(ops, k + 1, Left) && rightOffset' == TotalSpacers(ops, k + 1, Right)
  {
    var op := ops[k];
    var leftLen := op.i2 - op.i1;
    var rightLen := op.j2 - op.j1;
    leftOffset', rightOffset' := leftOffset, rightOffset;
    if op.tag == Equal || leftLen == rightLen {
      PadStepWithoutSpacers(left.lines, ops, k, l0, Left);
      PadStepWithoutSpacers(right.lines, ops, k, r0, Right);
    } else if leftLen > rightLen {
      var count := leftLen - rightLen;
      var line := op.j2 + rightOffset + 1;
      PadStepWithoutSpacers(left.lines, ops, k, l0, Left);
      InsertOpcodeSpacers(right, ops, k, r0, Right, line, count);
      rightOffset' := rightOffset + count;
    } else {
      var count := rightLen - leftLen;
      var line := op.i2 + leftOffset + 1;
      PadStepWithoutSpacers(right.lines, ops, k, r0, Right);
      InsertOpcodeSpacers(left, ops, k, l0, Left, line, count);
      leftOffset' := leftOffset + count;
    }
  }

  /** The padding loop of `_apply_alignment_spacers`: walks the opcodes
      with one running offset per side, padding each opcode in turn; each
      side ends up padded by the opcodes. */
  method PadWidgets(left: TextWidget, right: TextWidget, ops: seq<Opcode>)
    requires left != right
    requires Covers(ops, |left.lines|, |right.lines|)
    modifies left, right
    ensures left.lines == Padded(ops, |ops|, old(left.lines), Left)
    ensures right.lines == Padded(ops, |ops|, old(right.lines), Right)
  {
    ghost var l0, r0 := left.lines, right.lines;
    var leftOffset, rightOffset := 0, 0;
    var k := 0;
    assert l0[0..] == l0 && r0[0..] == r0;
    while k < |ops|
      invariant 0 <= k <= |ops|
      invariant PaddedUpTo(left.lines, ops, k, l0, Left) && PaddedUpTo(right.lines, ops, k, r0, Right)
      invariant leftOffset == TotalSpacers(ops, k, Left) && rightOffset == TotalSpacers(ops, k, Right)
    {
      leftOffset, rightOffset := PadOpcode(left, right, ops, k, l0, r0, leftOffset, rightOffset);
      k := k + 1;
    }
    assert l0[Start(ops, |ops|, Left)..] == [] && r0[Start(ops, |ops|, Right)..] == [];
  }

  class DiffMergeApp {
    const leftText: TextWidget
    const rightText: TextWidget
    /** The merge widget's text. */
    var merged: string
    var blocks: seq<DiffBlock>
    /** `current_block_index`. */
    var cursor: Option<nat>
    var opcodes: seq<Opcode>
    var spacersApplied: bool
    /** The "Sync view" check button. */
    var syncView: bool
    var status: Status
    /** Each widget's lines without the spacer lines: what the widget holds
        when the spacers are not applied. */
    ghost var leftContent: seq<Line>
    ghost var rightContent: seq<Line>

    /** The lines of one side's widget. */
    function Text(side: Side): seq<Line>
      reads this, leftText, rightText
    {
      if side == Left then leftText.lines else rightText.lines
    }

    /** The state the operations keep: the two widgets are distinct, the
        cursor names a block, and the widgets agree with the opcodes. */
    ghost predicate Valid()
      reads this, leftText, rightText
    {
      leftText != rightText && CursorInRange() && Aligned()
    }

    /** The cursor, when set, names one of the blocks. */
    predicate CursorInRange()
      reads this`cursor, this`blocks
    {
      cursor.Some? ==> cursor.value < |blocks|
    }

    /** The contents have no spacer lines; the opcodes of the last
        comparison cover both contents and the blocks are the ones they
        give; each widget holds its contents, padded by those opcodes when
        the spacers are applied. */
    ghost predicate Aligned()
      reads this`opcodes, this`blocks, this`spacersApplied, this`leftContent, this`rightContent, leftText, rightText
    {
      NoSpacers(leftContent) && NoSpacers(rightContent) &&
      (opcodes != [] ==>
        Covers(opcodes, |leftContent|, |rightContent|) && blocks == BlocksOf(opcodes, |opcodes|)) &&
      if spacersApplied && opcodes != [] then
        leftText.lines == Padded(opcodes, |opcodes|, leftContent, Left) &&
        rightText.lines == Padded(opcodes, |opcodes|, rightContent, Right)
      else
        leftText.lines == leftContent && rightText.lines == rightContent
    }

    /** The contents are the widgets' non-spacer lines. */
    lemma RealLinesAreContent()
      requires Valid()
      ensures RealLines(leftText.lines) == leftContent && RealLines(rightText.lines) == rightContent
    {
      if spacersApplied && opcodes != [] {
        PaddedRealLines(opcodes, |opcodes|, leftContent, Left);
        PaddedRealLines(opcodes, |opcodes|, rightContent, Right);
        assert leftContent[..End(opcodes, Left)] == leftContent;
        assert rightContent[..End(opcodes, Right)] == rightContent;
      } else {
        RealLinesOfNoSpacers(leftContent);
        RealLinesOfNoSpacers(rightContent);
      }
    }

    constructor ()
      ensures Valid() && fresh(leftText) && fresh(rightText)
      ensures leftText.lines == [Line("", false)] && rightText.lines == [Line("", false)]
      ensures merged == "" && blocks == [] && cursor == None && opcodes == []
      ensures !spacersApplied && !syncView && status == Ready
    {
      leftText := new TextWidget();
      rightText := new TextWidget();
      merged := "";
      blocks := [];
      cursor := None;
      opcodes := [];
      spacersApplied := false;
      syncView := false;
      status := Ready;
      leftContent := [Line("", false)];
      rightContent := [Line("", false)];
    }

    /** `_remove_spacer_lines`: both widgets lose their spacer lines. */
    method RemoveSpacerLines()
      requires Valid()
      modifies this, leftText, rightText
      ensures Valid() && !spacersApplied
      ensures leftContent == old(leftContent) && rightContent == old(rightContent)
      ensures leftText.lines == leftContent && rightText.lines == rightContent
      ensures merged == old(merged) && blocks == old(blocks) && cursor == old(cursor)
      ensures opcodes == old(opcodes) && syncView == old(syncView) && status == old(status)
    {
      RealLinesAreContent();
      RemoveSpacers(leftText);
      RemoveSpacers(rightText);
      spacersApplied := false;
    }

    /** `_apply_alignment_spacers`: when the spacers are not in place and
        there are opcodes, pads both widgets from their real lines, walking
        the opcodes with one running offset per side. */
    method ApplyAlignmentSpacers()
      requires Valid()
      modifies this, leftText, rightText
      ensures Valid() && spacersApplied
      ensures old(spacersApplied) || opcodes == [] ==>
        leftText.lines == old(leftText.lines) && rightText.lines == old(rightText.lines)
      ensures !old(spacersApplied) && old(opcodes) != [] ==>
        leftText.lines == Padded(old(opcodes), |old(opcodes)|, old(leftText.lines), Left) &&
        rightText.lines == Padded(old(opcodes), |old(opcodes)|, old(rightText.lines), Right)
      ensures leftContent == old(leftContent) && rightContent == old(rightContent)
      ensures merged == old(merged) && blocks == old(blocks) && cursor == old(cursor)
      ensures opcodes == old(opcodes) && syncView == old(syncView) && status == old(status)
    {
      if spacersApplied {
        return;
      }
      if opcodes == [] {
        spacersApplied := true;
        return;
      }
      RemoveSpacerLines();
      PadWidgets(leftText, rightText, opcodes);
      spacersApplied := true;
    }

    /** `toggle_sync_view`, after the check button has been set to
        `checked`: removes the spacers when unchecked, applies them when
        checked (scroll alignment is not modelled). */
    method ToggleSyncView(checked: bool)
      requires Valid()
      modifies this, leftText, rightText
      ensures Valid() && syncView == checked
      ensures spacersApplied == checked
      ensures leftContent == old(leftContent) && rightContent == old(rightContent)
      ensures !checked ==> leftText.lines == RealLines(old(leftText.lines)) && rightText.lines == RealLines(old(rightText.lines))
      ensures checked && (old(spacersApplied) || opcodes == []) ==>
        leftText.lines == old(leftText.lines) && rightText.lines == old(rightText.lines)
      ensures checked && !old(spacersApplied) && opcodes != [] ==>
        leftText.lines == Padded(opcodes, |opcodes|, old(leftText.lines), Left) &&
        rightText.lines == Padded(opcodes, |opcodes|, old(rightText.lines), Right)
      ensures status == if checked then SyncEnabled else SyncDisabled
      ensures merged == old(merged) && blocks == old(blocks) && cursor == old(cursor) && opcodes == old(opcodes)
    {
      syncView := checked;
      if !syncView {
        RealLinesAreContent();
        RemoveSpacerLines();
        status := SyncDisabled;
        return;
      }
      ApplyAlignmentSpacers();
      status := SyncEnabled;
    }

    /** Checking sync view and unchecking it again gives every widget back
        the lines it held, whatever the opcodes padded in between. */
    method ToggleSyncViewOnOff()
      requires Valid() && !spacersApplied
      modifies this, leftText, rightText
      ensures Valid() && !spacersApplied && !syncView && status == SyncDisabled
      ensures leftText.lines == old(leftText.lines) && rightText.lines == old(rightText.lines)
      ensures merged == old(merged) && blocks == old(blocks) && cursor == old(cursor) && opcodes == old(opcodes)
    {
      ToggleSyncView(true);
      ToggleSyncView(false);
    }

    /** The loop of `compare_texts` that builds the blocks: one block per
        non-`equal` opcode, appended in opcode order. */
    method CollectBlocks(ops: seq<Opcode>)
      requires blocks == []
      modifies this`blocks
      ensures blocks == BlocksOf(ops, |ops|)
    {
      var index := 0;
      while index < |ops|
        invariant 0 <= index <= |ops|
        invariant blocks == BlocksOf(ops, index)
      {
        var op := ops[index];
        if op.tag != Equal {
          var leftTag: Option<Highlight> := None;
          var rightTag: Option<Highlight> := None;
          if op.i2 > op.i1 {
            leftTag := Some(Highlight(index, if op.tag == Replace then Replace else Delete));
          }
          if op.j2 > op.j1 {
            rightTag := Some(Highlight(index, if op.tag == Replace then Replace else Insert));
          }
          blocks := blocks + [DiffBlock(op.tag, (op.i1, op.i2), (op.j1, op.j2), leftTag, rightTag)];
        }
        index := index + 1;
      }
    }

    /** `compare_texts`, given the opcodes the aligner returns for the two
        widgets' real lines: rebuilds the blocks (one per non-`equal`
        opcode), selects the first one, and pads the widgets when sync view
        is on. */
    method CompareTexts(ops: seq<Opcode>)
      requires Valid()
      requires Covers(ops, |RealLines(leftText.lines)|, |RealLines(rightText.lines)|)
      modifies this, leftText, rightText
      ensures Valid()
      ensures opcodes == ops && blocks == BlocksOf(ops, |ops|)
      ensures blocks == [] ==> cursor == None && status == Identical
      ensures blocks != [] ==> cursor == Some(0) && status == Viewing(1, |blocks|)
      ensures spacersApplied == (syncView && blocks != [])
      ensures leftContent == RealLines(old(leftText.lines)) && rightContent == RealLines(old(rightText.lines))
      ensures spacersApplied ==>
        leftText.lines == Padded(ops, |ops|, leftContent, Left) &&
        rightText.lines == Padded(ops, |ops|, rightContent, Right)
      ensures !spacersApplied ==> leftText.lines == leftContent && rightText.lines == rightContent
      ensures merged == old(merged) && syncView == old(syncView)
    {
      RealLinesAreContent();
      RemoveSpacerLines();
      ShowDifferences(ops);
    }

    /** The rest of `compare_texts`, once the widgets hold only their real
        lines: records the opcodes, builds the blocks, and selects the first
        block, padding the widgets when sync view is on. */
    method ShowDifferences(ops: seq<Opcode>)
      requires Valid() && !spacersApplied
      requires leftText.lines == leftContent && rightText.lines == rightContent
      requires Covers(ops, |leftContent|, |rightContent|)
      modifies this, leftText, rightText
      ensures Valid()
      ensures opcodes == ops && blocks == BlocksOf(ops, |ops|)
      ensures blocks == [] ==> cursor == None && status == Identical
      ensures blocks != [] ==> cursor == Some(0) && status == Viewing(1, |blocks|)
      ensures spacersApplied == (syncView && blocks != [])
      ensures leftContent == old(leftContent) && rightContent == old(rightContent)
      ensures spacersApplied ==>
        leftText.lines == Padded(ops, |ops|, leftContent, Left) &&
        rightText.lines == Padded(ops, |ops|, rightContent, Right)
      ensures !spacersApplied ==> leftText.lines == leftContent && rightText.lines == rightContent
      ensures merged == old(merged) && syncView == old(syncView)
    {
      blocks := [];
      cursor := None;
      opcodes := [];
      opcodes := ops;
      CollectBlocks(ops);
      if blocks == [] {
        status := Identical;
        return;
      }
      if syncView {
        ApplyAlignmentSpacers();
      }
      cursor := Some(0);
      status := Viewing(1, |blocks|);
    }

    /** `next_block`: nothing without blocks; otherwise the cursor moves on
        (wrapping) and the status names the selected block. */
    method NextBlock()
      requires Valid()
      modifies this
      ensures Valid()
      ensures cursor == NextIndex(old(cursor), |blocks|)
      ensures blocks != [] ==> status == Viewing(cursor.value + 1, |blocks|)
      ensures blocks == [] ==> status == old(status)
      ensures blocks == old(blocks) && merged == old(merged) && opcodes == old(opcodes)
      ensures spacersApplied == old(spacersApplied) && syncView == old(syncView)
    {
      if blocks == [] {
        return;
      }
      if cursor.None? {
        cursor := Some(0);
      } else {
        cursor := Some((cursor.value + 1) % |blocks|);
      }
      status := Viewing(cursor.value + 1, |blocks|);
    }

    /** `prev_block`: nothing without blocks; otherwise the cursor moves
        back (wrapping) and the status names the selected block. */
    method PrevBlock()
      requires Valid()
      modifies this
      ensures Valid()
      ensures cursor == PrevIndex(old(cursor), |blocks|)
      ensures blocks != [] ==> status == Viewing(cursor.value + 1, |blocks|)
      ensures blocks == [] ==> status == old(status)
      ensures blocks == old(blocks) && merged == old(merged) && opcodes == old(opcodes)
      ensures spacersApplied == old(spacersApplied) && syncView == old(syncView)
    {
      if blocks == [] {
        return;
      }
      if cursor.None? {
        cursor := Some(0);
      } else {
        cursor := Some((cursor.value - 1) % |blocks|);
      }
      status := Viewing(cursor.value + 1, |blocks|);
    }

    /** `_merge_choice`: with a block selected, extracts its two ranges from
        the widgets as they stand, picks the text the button asks for, and
        puts it into the merge buffer unless it is empty. */
    method MergeChoice(choice: Choice) returns (outcome: MergeOutcome)
      requires Valid()
      modifies this
      ensures Valid()
      ensures old(cursor).None? ==> outcome == NoSelection && merged == old(merged) && status == old(status)
      ensures old(cursor).Some? ==>
        var block := old(blocks)[old(cursor).value];
        var chosen := Chosen(choice,
          Extracted(leftText.lines, block.leftRange.0, block.leftRange.1),
          Extracted(rightText.lines, block.rightRange.0, block.rightRange.1));
        (chosen == "" ==> outcome == NothingToMerge && merged == old(merged) && status == old(status)) &&
        (chosen != "" ==> outcome == Inserted && merged == Merged(old(merged), chosen) && status == Appended)
      ensures blocks == old(blocks) && cursor == old(cursor) && opcodes == old(opcodes)
      ensures spacersApplied == old(spacersApplied) && syncView == old(syncView)
    {
      if cursor.None? {
        return NoSelection;
      }
      var block := blocks[cursor.value];
      var leftPart := ExtractRange(leftText.lines, block.leftRange);
      var rightPart := ExtractRange(rightText.lines, block.rightRange);
      var chosen;
      match choice {
        case UseLeft => chosen := leftPart;
        case UseRight => chosen := rightPart;
        case UseBoth => chosen := leftPart + rightPart;
      }
      assert chosen == Chosen(choice, leftPart, rightPart);
      if chosen == "" {
        return NothingToMerge;
      }
      if IsBlank(merged) {
        merged := chosen + merged;
      } else {
        merged := merged + chosen;
      }
      status := Appended;
      outcome := Inserted;
    }

    /** `clear_merge`: empties the merge buffer. */
    method ClearMerge()
      requires Valid()
      modifies this
      ensures Valid() && merged == "" && status == Cleared
      ensures blocks == old(blocks) && cursor == old(cursor) && opcodes == old(opcodes)
      ensures spacersApplied == old(spacersApplied) && syncView == old(syncView)
    {
      merged := "";
      status := Cleared;
    }

    /** `_load_file_into_widget`: drops the spacers and the opcodes, then,
        when the file could be read (`contents` is not `None`), replaces the
        side's lines with the file's lines.  The blocks and the cursor are
        kept. */
    method LoadFile(side: Side, contents: Option<string>) returns (ok: bool)
      requires Valid()
      modifies this, leftText, rightText
      ensures Valid() && opcodes == [] && !spacersApplied
      ensures ok <==> contents.Some?
      ensures ok ==> (Text(side) == ToLines(SplitLines(contents.value)) &&
        JoinLines(Texts(Text(side))) == contents.value &&
        Text(Other(side)) == RealLines(old(Text(Other(side)))) && status == Loaded(side))
      ensures !ok ==> (leftText.lines == RealLines(old(leftText.lines)) &&
        rightText.lines == RealLines(old(rightText.lines)) && status == old(status))
      ensures blocks == old(blocks) && cursor == old(cursor) && merged == old(merged) && syncView == old(syncView)
    {
      RealLinesAreContent();
      RemoveSpacerLines();
      opcodes := [];
      if contents.None? {
        return false;
      }
      ReplaceText(side, contents.value);
      ok := true;
    }

    /** The rest of `load_file` once a file was read, the spacers are gone
        and the opcodes are cleared: the widget of `side` is refilled with
        the contents, the other widget is left alone, and the status bar
        names the loaded side. */
    method ReplaceText(side: Side, contents: string)
      requires Valid() && !spacersApplied && opcodes == []
      requires leftText.lines == leftContent && rightText.lines == rightContent
      modifies this, leftText, rightText
      ensures Valid() && opcodes == [] && !spacersApplied
      ensures Text(side) == ToLines(SplitLines(contents)) && JoinLines(Texts(Text(side))) == contents
      ensures Text(Other(side)) == old(Text(Other(side))) && status == Loaded(side)
      ensures blocks == old(blocks) && cursor == old(cursor) && merged == old(merged) && syncView == old(syncView)
    {
      var widget := if side == Left then leftText else rightText;
      widget.lines := ToLines(SplitLines(contents));
      if side == Left {
        leftContent := widget.lines;
      } else {
        rightContent := widget.lines;
      }
      JoinSplit(contents);
      status := Loaded(side);
    }
  }
}
