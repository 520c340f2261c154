# Text diff and merge engine

A Dafny model of the engine inside `text_diff_merge.py`, a Tkinter tool
that shows two texts side by side and builds a merged document from them.
Every Tk text widget is modelled as the sequence of its lines. A line has a
text and a flag that says whether the "spacer" tag covers it. Visual line
`L` (1-based, as Tk numbers lines) is element `L - 1`.

The model has seven modules:

- `Lines`: widget lines, spacer lines, tagging, and how inserted text
  breaks into lines. `_is_spacer_line` and `_spacer_line_numbers` are here.
- `Opcodes`: the opcodes of the sequence aligner and the padding they
  determine. `Padded` is the reference definition of what
  `_apply_alignment_spacers` does to one side, and `TotalSpacers` is its
  running offset.
- `Blocks`: `DiffBlock` and the blocks `compare_texts` builds.
- `Navigation`: the cursor arithmetic of `next_block` and `prev_block`.
- `Merge`: `_extract_range`, the text a merge button picks, and where that
  text goes in the merge buffer.
- `Gutter`: the numbering arithmetic of `_update_line_numbers`.
- `App`: the `DiffMergeApp` object.
  - It is a class with the source's state: `blocks`, `current_block_index`
    (`cursor`), `_opcodes`, `_spacers_applied`, the sync-view check
    button, the status bar, the merge buffer, and two `TextWidget`
    objects whose lines the methods change in place.
  - Its invariant `Valid` ties the widgets to the last comparison. Each
    widget holds its real lines, padded by the opcodes while the spacers
    are applied. The blocks are the ones the opcodes give, and the cursor
    names a block.

The aligner (`difflib.SequenceMatcher`) is not modelled. `CompareTexts`
takes its opcodes as an argument and requires what the aligner guarantees:
contiguous half-open ranges that cover both line sequences, with
equal-length ranges for `equal` opcodes. File contents are passed to
`LoadFile` as an `Option<string>`, where `None` stands for a file that
could not be read.

## Behaviour worth noting

- A merged range reads every line with its terminating newline, because
  `_extract_range` reads each line up to the start of the next one. Merging
  left lines "a", "b" and right line "x" therefore gives `"a\nb\nx\n"`.
- `_is_spacer_line` asks the widget for a spacer tag range that starts
  inside the line. The widget merges the tags of neighbouring spacer lines
  into one range, so only the first line of a run of spacer lines answers
  yes. `_extract_range` skips that line and reads every further line of the
  run as an empty line. `_spacer_line_numbers` walks the tag ranges instead
  and lists every spacer line. The model keeps both tests:
  `Lines.StartsSpacerRange` and `Lines.IsSpacerLine`.
- A block's highlight style follows the opcode's kind: `replace` for a
  replace opcode, and `delete` or `insert` otherwise. It does not follow
  which of the two ranges are empty.
- Loading a file does not reset the blocks or the cursor.
- The "Found n differing block(s)" status is overwritten at once by
  "Viewing difference 1 of n", so only the latter is modelled.

## Model

| member | source | states |
|---|---|---|
| Lines.SpacerLineNumbers | text_diff_merge.py:256-268 | the spacer line numbers are strictly ascending; a number is listed exactly when the spacer tag covers that line; there are as many as the widget has lines that are not real |
| Lines.SpacerLineNumbersSplit | text_diff_merge.py:256-268 | the spacer numbers of the first `k` lines are a prefix of all spacer numbers, and every later one lies below line `k` |
| Lines.TaggedMarksRange | text_diff_merge.py:356-361 | tagging keeps every line's text, and a line is a spacer afterwards exactly when it was one before or lies in the tagged range |
| Lines.TaggedBlankLines | text_diff_merge.py:349-361 | freshly inserted blank lines, once tagged, are exactly spacer lines between the untouched lines before and after them |
| Lines.RealLinesAppend | text_diff_merge.py:305-314 | dropping spacer lines distributes over concatenation |
| Lines.RealLinesOfNoSpacers | text_diff_merge.py:305-314 | removing spacers from lines that have none changes nothing |
| Lines.SpacersAreNotReal | text_diff_merge.py:349-361 | inserted spacer lines contribute no real line |
| Lines.JoinSplit | text_diff_merge.py:481-482 | joining the lines an inserted text breaks into gives back the text |
| Lines.SplitJoin | text_diff_merge.py:481-482 | breaking lines joined by newlines gives back those lines |
| Opcodes.StartMonotone | text_diff_merge.py:496-497 | covering opcodes only move forward on each side |
| Opcodes.PaddedLength | text_diff_merge.py:326-343 | after `n` opcodes a padded side is as long as the lines they cover plus the running offset |
| Opcodes.HeightsAgree | text_diff_merge.py:326-343 | after every opcode, covered lines plus offset agree on the two sides |
| Opcodes.PaddedSidesAligned | text_diff_merge.py:326-343 | with covering opcodes, both padded sides have the same number of lines after any prefix of the opcodes, so every block starts on the same visual line on both sides |
| Opcodes.PadStep | text_diff_merge.py:333-342 | inserting an opcode's spacers right after its range, shifted by the spacers inserted before, pads one more opcode |
| Opcodes.PadStepWithSpacers | text_diff_merge.py:333-342 | the same step stated on the lines one side holds part way through the padding loop |
| Opcodes.PadStepWithoutSpacers | text_diff_merge.py:326-332 | an `equal` opcode, equal-length ranges or the longer side leave the lines as they are, and they count as padded one opcode further |
| Opcodes.PaddedRealLines | text_diff_merge.py:305-314 | removing the spacer lines from a padded side gives back exactly the covered lines, so removal undoes padding |
| Opcodes.PaddedBlockAt | text_diff_merge.py:326-343 | in a padded side, opcode `k`'s lines sit right after the padded lines of the opcodes before it |
| Blocks.ChangedIndices | text_diff_merge.py:498-500 | the indices of the non-`equal` opcodes: ascending, all below `n`, and none missing |
| Blocks.OneBlockPerChange | text_diff_merge.py:497-524 | exactly one block per non-`equal` opcode, in opcode order, carrying that opcode's kind, both ranges and its index |
| Blocks.BlockHighlights | text_diff_merge.py:502-521 | every block is a change; it has a left highlight exactly when its left range is non-empty, and a right one exactly when its right range is non-empty; the left style is replace or delete and the right style replace or insert, by the opcode's kind |
| Blocks.NoBlocksIffAllEqual | text_diff_merge.py:498-528 | there are no blocks (the documents are reported identical) exactly when every opcode is `equal` |
| Navigation.NextIndex | text_diff_merge.py:567-574 | with no blocks the cursor is unchanged; otherwise it lands in `[0, count)`, on 0 from no selection |
| Navigation.PrevIndex | text_diff_merge.py:558-565 | the same for going back; the remainder is never negative, as with Python's `%` |
| Navigation.Wraparound | text_diff_merge.py:558-574 | next wraps from the last block to the first, and previous from the first to the last |
| Navigation.NextPrevInverse | text_diff_merge.py:558-574 | from a selected block, previous undoes next and next undoes previous |
| Navigation.AdvanceFrom | text_diff_merge.py:567-574 | `s` presses of next from block `i` land on block `(i + s) mod count` |
| Gutter.BisectLeft | text_diff_merge.py:245 | `bisect_left`: every element before the result is below `x`, and none from it on |
| Gutter.DecimalLength | text_diff_merge.py:226 | `len(str(n))` is the `d` with `10^(d-1) <= n < 10^d` |
| Gutter.BisectCountsSpacersAbove | text_diff_merge.py:245 | bisecting a line number in the spacer list counts the spacer lines above that line |
| Gutter.LabelIsLogicalNumber | text_diff_merge.py:242-250 | a non-spacer line shows its position among the real lines, which is that real line; the floor of 1 never applies |
| Gutter.LabelsFitDigits | text_diff_merge.py:223-226 | the gutter has digits enough for every number it shows |
| Gutter.LabelsMeaning | text_diff_merge.py:223-250 | a line gets no number exactly when it is a spacer line; every other line shows its logical number, which fits the gutter |
| Gutter.DrawnLabels | text_diff_merge.py:234-253 | labels drawn one per line by that rule mean what `LabelsMeaning` says |
| Gutter.CollectSpacerLines | text_diff_merge.py:256-268 | the loop collects exactly the spacer line numbers, ascending |
| Gutter.LineNumbers | text_diff_merge.py:217-254 | the digit count is at least 2 and is the one the formula gives; there is one label per line, none exactly on spacer lines, and every other label is the line's logical number and fits the digit count |
| Lines.RangeStartsOfSingleSpacers | text_diff_merge.py:363-366 | where no spacer line follows another, the lines where a spacer range starts are exactly the spacer lines |
| Lines.RangeStartsOfNoSpacers | text_diff_merge.py:363-366 | in a run of lines without spacers no spacer range starts |
| Merge.ExtractRange | text_diff_merge.py:659-670 | the loop returns the range's text; inside the widget, that text is the range's lines, each with its newline, except the lines where a spacer range starts |
| Merge.ExtractedIsRealLines | text_diff_merge.py:659-670 | within the widget, a line where a spacer range starts contributes nothing and every other line, including a spacer line that follows another, contributes its text and newline; where no spacer line follows another, exactly the non-spacer lines are read |
| Merge.ExtractedOfNoSpacers | text_diff_merge.py:659-670 | a range without spacer lines reads as its lines, each with its newline |
| Merge.ExtractedPastEnd | text_diff_merge.py:664-669 | lines beyond the widget's end add nothing, so a stale range reads at most to the end |
| Merge.TerminatedAppend | text_diff_merge.py:669-670 | the pieces of two runs of lines join into the pieces of the whole run |
| Merge.SplitTerminated | text_diff_merge.py:664-670 | newline-terminated lines, inserted into a widget, break back into exactly those lines and one empty line |
| Merge.TerminatedEmpty | text_diff_merge.py:626-628 | the text of some lines is empty exactly when there are no lines |
| Merge.RangeText | text_diff_merge.py:659-670 | without spacers, a range reads as its own lines, each ending in a newline |
| Merge.ChosenIsBlockLines | text_diff_merge.py:611-626 | without spacers, a merge button's text is the chosen block lines in order (left then right for "both"); it breaks back into exactly those lines, and it is empty ("Nothing to merge") exactly when the chosen ranges are empty |
| Merge.MergedKeepsBoth | text_diff_merge.py:630-634 | a merge keeps the whole buffer and the whole chosen text, the chosen text first when the buffer is blank and last otherwise; the result is blank only if both were |
| Merge.MergesInOrder | text_diff_merge.py:626-641 | from a cleared buffer, merging texts that are not blank builds their concatenation in the order of the merges |
| Merge.ExampleCovers | text_diff_merge.py:496-497 | the example opcodes cover the example's three left lines and its `n + 2` right lines |
| Merge.ExamplePadded | text_diff_merge.py:326-343 | the example's left side is padded with `n - 1` spacers after "a" and nothing else |
| Merge.UnshiftedRangeReadsWrongLine | text_diff_merge.py:615-617 | with the spacers applied, the example's second block, whose range was stored unshifted, reads "c" from the left side although its range holds "d" |
| Merge.SpacerRunReadsBlankLine | text_diff_merge.py:659-670 | with two spacer lines after "a", the second block's unshifted left range lands on the second spacer line, which the tag covers, and reads it as an empty line |
| Merge.AlignedRangeReadsBlock | text_diff_merge.py:615-617 | a block's range shifted by the running offset reads exactly the block's own lines from the padded side, which is the text the unpadded side gives for the unshifted range |
| App.RemoveSpacersStep | text_diff_merge.py:310-311 | deleting line `i` when it is a spacer, with the lines after it already reduced, reduces the lines from `i` on |
| App.RemoveSpacers | text_diff_merge.py:306-312 | afterwards the widget holds exactly its old non-spacer lines, in order |
| App.TagSpacerLines | text_diff_merge.py:356-361 | the widget's lines, with the `count` lines from `start` on tagged |
| App.InsertSpacerLines | text_diff_merge.py:349-354 | nothing for a non-positive count; otherwise `count` spacer lines before visual line `line` and nothing else changed |
| App.InsertOpcodeSpacers | text_diff_merge.py:333-342 | inserting an opcode's spacers at `Hi + offset + 1` pads the side one opcode further |
| App.PadOpcode | text_diff_merge.py:326-343 | one pass of the padding loop pads both sides one opcode further and advances each offset by the spacers that side received |
| App.PadWidgets | text_diff_merge.py:323-343 | the padding loop leaves each side padded by all the opcodes |
| App.DiffMergeApp.RealLinesAreContent | text_diff_merge.py:305-314 | under the invariant, each widget's non-spacer lines are its contents |
| App.DiffMergeApp.constructor | text_diff_merge.py:37-52 | no blocks, no cursor, no opcodes, spacers not applied, two empty widgets |
| App.DiffMergeApp.RemoveSpacerLines | text_diff_merge.py:305-314 | both widgets hold their real lines again, the flag is cleared, and nothing else changes |
| App.DiffMergeApp.ApplyAlignmentSpacers | text_diff_merge.py:316-347 | a no-op when already applied; with no opcodes it only sets the flag; otherwise each widget is its real lines padded by the opcodes; the invariant holds |
| App.DiffMergeApp.ToggleSyncView | text_diff_merge.py:369-379 | unchecking leaves each widget its real lines; checking leaves the widgets as they were when the spacers are in place or there are no opcodes, and otherwise pads each widget's lines by the opcodes; the contents never change, and the status bar says which |
| App.DiffMergeApp.ToggleSyncViewOnOff | text_diff_merge.py:369-379 | checking sync view and unchecking it again gives both widgets back exactly the lines they held |
| App.DiffMergeApp.CollectBlocks | text_diff_merge.py:497-524 | the loop leaves exactly the blocks the opcodes give |
| App.DiffMergeApp.CompareTexts | text_diff_merge.py:486-537 | the opcodes are recorded and the blocks are the ones they give; with no blocks the cursor is cleared and the status says identical, otherwise block 1 is selected; the widgets hold their real lines, padded exactly when sync view is on and there are blocks |
| App.DiffMergeApp.ShowDifferences | text_diff_merge.py:492-537 | the same, starting from widgets that hold their real lines |
| App.DiffMergeApp.NextBlock | text_diff_merge.py:567-574 | the cursor moves as `NextIndex` says, and the status names the selected block as `_apply_current_block` does |
| App.DiffMergeApp.PrevBlock | text_diff_merge.py:558-565 | the cursor moves as `PrevIndex` says, and the status names the selected block as `_apply_current_block` does |
| App.DiffMergeApp.MergeChoice | text_diff_merge.py:611-636 | no selection, nothing to merge, or the chosen text (left, right or both) put at the start of a blank buffer or the end of any other; the ranges are read from the widgets as they stand |
| App.DiffMergeApp.ClearMerge | text_diff_merge.py:638-641 | the merge buffer is empty |
| App.DiffMergeApp.LoadFile | text_diff_merge.py:472-484 | the spacers and the opcodes are dropped first; when the file was read, the side holds its lines and joining them gives back the contents, and the other side keeps its real lines; blocks and cursor are kept |
| App.DiffMergeApp.ReplaceText | text_diff_merge.py:481-484 | the side's widget is refilled with the contents, the other is untouched, and the invariant holds |

`CompareTexts` states the blocks as `BlocksOf` of the opcodes. Their
meaning (one per change, in order, and none exactly when all opcodes are
`equal`) is proved once about `BlocksOf` in `Blocks`.

## Left out

- The sequence aligner (`difflib.SequenceMatcher`) is a foreign library. Its opcodes are an argument, with the coverage it guarantees as a precondition.
- Tk rendering is not modelled: building the window, canvases, pixel widths, fonts, highlight tag names and colours, and the "current" tag of `_apply_current_block`. Only each block's highlight presence and style are kept.
- Scroll synchronisation and the mouse wheel are not modelled: they are event-driven and use floating-point fractions.
- File dialogs, message boxes, drag and drop, and `save_merge` are I/O. `LoadFile` takes the contents instead, and the two information boxes of a merge are the outcome `NoSelection` and `NothingToMerge`.
- Tk index strings and clamping are not modelled, and neither is the trailing newline Tk keeps after the last line. Inserted text breaks into lines at '\n' only, not at the other line boundaries of `str.splitlines`.
- Typing into the widgets is not modelled. Only loading changes a widget's text.
- `_remove_spacer_lines` deletes whole tag ranges from the last one back. The model deletes spacer lines one at a time from the last line back, which removes the same lines.
- App.TagSpacerLines: requires the tagged lines to lie inside the widget; Tk would clamp indices past the end, which the padder never produces for covering opcodes.
- App.InsertSpacerLines: requires the insertion line to lie inside the widget or just past its end, for the same reason.
- Gutter.LineNumbers: labels every line, not only the lines on screen, and draws nothing. The `inserted` flag of `_apply_alignment_spacers` only decides when the gutter is redrawn, so it is left out.
- App.DiffMergeApp.MergeChoice: reads the block ranges exactly as the source does, so with the spacers applied it can read the wrong lines, including a spacer line that follows another, which it reads as an empty line (see Findings and `Merge.SpacerRunReadsBlankLine`). The corrected range is `Merge.AlignedRange`, and its property is proved by `Merge.AlignedRangeReadsBlock`. The method stays as written.

## Findings

| source | as written | input that shows it | evidently intended | confidence | as-written member | corrected member |
|---|---|---|---|---|---|---|
| text_diff_merge.py:523, 615-617 | block ranges keep logical line numbers after `_apply_alignment_spacers` inserts spacer lines, and `_extract_range` reads them as visual lines of the padded widget | left "a", "c", "d" against right "x", "y", "c", "e" with sync view on: the second block's left range is (2, 3), but Merge Left reads "c\n" from the padded left widget instead of "d\n" | read each block's own lines: shift the range by the spacers inserted above it on that side (the padder's running offset) | high, not executed | Merge.UnshiftedRangeReadsWrongLine | Merge.AlignedRangeReadsBlock |
